/**
  The work-stealing thread pool of src/sync/pool/inner_thread_pool.rs: any number of submitting threads, any
  number of workers, and scans for running workers, interleaved one atomic access at a time.
 */
module Pool {
  import opened Promises
  import opened Sequences
  import opened Wrappers

  type TaskId = nat

  datatype WorkerState = Idle | Running | Panicked | Finished

  /** Where a worker is in its loop.  `seen`: the worker count loaded first by `maybe_stop`. */
  datatype WorkerPc =
    | Looping
    | MaybeStop
    | CheckWorkers(seen: int)
    | CheckTasks(seen: int, workers: int)
    | StopCas(seen: int)
    | RemoveHandle
    | Leaving
    | Got(task: TaskId)
    | Run(task: TaskId)
    | Ended(panicked: bool)
    | Report(panicked: bool)
    | Gone

  datatype Worker = Worker(state: WorkerState, pc: WorkerPc, deque: seq<TaskId>)

  /** Where a submitting thread is.  The counts loaded at first are used for every retry. */
  datatype SubmitPc =
    | Outside
    | Pushed
    | Counted
    | LoadedTasks(tasks: nat)
    | Deciding(tasks: nat, workers: int)
    | Reserved
    | Spawned(id: nat)

  /** A scan that holds the lock on the handles.  `eligible`: the workers listed that counted as active when it
      began; `counted`: those it has found running. */
  datatype Scan = Scan(next: nat, count: nat, eligible: set<nat>, counted: set<nat>)

  datatype State = State(
    maxSize: nat,
    coreSize: nat,
    activeWorkers: int,
    activeTasks: int,
    injector: seq<TaskId>,
    workers: seq<Worker>,
    submitters: seq<SubmitPc>,
    handles: seq<nat>,
    scan: Option<Scan>,
    failedSpawns: nat,
    submitted: seq<TaskId>,
    finished: multiset<TaskId>,
    results: seq<nat>)

  function Initial(maxSize: nat, coreSize: nat, threads: nat): State {
    State(maxSize, coreSize, 0, 0, [], [], seq(threads, _ => Outside), [], None, 0, [], multiset{}, [])
  }

  /** The steps of `submit` and `spawn_worker_if_needed`. */
  datatype SubmitStep = Push | CountTask | LoadTasks | LoadWorkers | Decide | Spawn | SpawnFails | PushHandle

  /** The steps of `timed_out`, `maybe_stop` and of leaving the loop. */
  datatype StopStep = TimeOut | LoadCounts | Cas | TakeHandle | Leave

  /** The ways `find_task` finds one.  A batch is moved to the finder's own deque, but for its first task. */
  datatype FindStep = PopOwn | StealInjector(batch: nat) | StealWorker(victim: nat, batch: nat)

  datatype TaskStep = StartTask | EndTask(panics: bool) | UncountTask | StoreState

  datatype Event =
    | Submitting(thread: nat, submitStep: SubmitStep)
    | Stopping(worker: nat, stopStep: StopStep)
    | Finding(worker: nat, findStep: FindStep)
    | Working(worker: nat, taskStep: TaskStep)
    | BeginScan
    | ScanNext
    | EndScan

  /** A task count as it is read: the counter is a machine word that wraps below 0. */
  function Wrapped(tasks: int): nat {
    tasks % 0x1_0000_0000_0000_0000
  }

  predicate SubmitEnabled(s: State, t: nat, step: SubmitStep) {
    t < |s.submitters| &&
    match step
    case Push => s.submitters[t].Outside?
    case CountTask => s.submitters[t].Pushed?
    case LoadTasks => s.submitters[t].Counted?
    case LoadWorkers => s.submitters[t].LoadedTasks?
    case Decide => s.submitters[t].Deciding?
    case Spawn => s.submitters[t].Reserved?
    case SpawnFails => s.submitters[t].Reserved?
    case PushHandle => s.submitters[t].Spawned? && s.scan.None?
  }

  function Submits(s: State, t: nat, pc: SubmitPc): State
    requires t < |s.submitters|
  {
    s.(submitters := s.submitters[t := pc])
  }

  function DoSubmit(s: State, t: nat, step: SubmitStep): State
    requires SubmitEnabled(s, t, step)
  {
    var pc := s.submitters[t];
    match step
    case Push =>
      Submits(s, t, Pushed).(injector := s.injector + [|s.submitted|], submitted := s.submitted + [|s.submitted|])
    case CountTask => Submits(s, t, Counted).(activeTasks := s.activeTasks + 1)
    case LoadTasks => Submits(s, t, LoadedTasks(Wrapped(s.activeTasks)))
    case LoadWorkers => Submits(s, t, Deciding(pc.tasks, s.activeWorkers))
    case Decide =>
      if pc.workers < s.maxSize && pc.tasks > pc.workers then
        if s.activeWorkers == pc.workers then Submits(s, t, Reserved).(activeWorkers := pc.workers + 1)
        else s
      else Submits(s, t, Outside)
    case Spawn => Submits(s, t, Spawned(|s.workers|)).(workers := s.workers + [Worker(Idle, Looping, [])])
    case SpawnFails => Submits(s, t, Outside).(failedSpawns := s.failedSpawns + 1)
    case PushHandle => Submits(s, t, Outside).(handles := s.handles + [pc.id])
  }

  function Sets(s: State, i: nat, w: Worker): State
    requires i < |s.workers|
  {
    s.(workers := s.workers[i := w])
  }

  function IndexOf(handles: seq<nat>, id: nat): (p: nat)
    requires id in handles
    ensures p < |handles| && handles[p] == id
  {
    if handles[0] == id then 0 else 1 + IndexOf(handles[1..], id)
  }

  /** `swap_remove` of a worker's handle, if it is listed: the last handle takes its place. */
  function Without(handles: seq<nat>, id: nat): (rest: seq<nat>)
    ensures forall h :: h in rest ==> h in handles
  {
    if id !in handles then handles
    else
      var last := |handles| - 1;
      handles[IndexOf(handles, id) := handles[last]][..last]
  }

  predicate StopEnabled(s: State, i: nat, step: StopStep) {
    i < |s.workers| &&
    var w := s.workers[i];
    match step
    case TimeOut => w.pc.Looping? && w.state.Idle? && w.deque == []
    case LoadCounts => w.pc.MaybeStop? || w.pc.CheckWorkers? || w.pc.CheckTasks?
    case Cas => w.pc.StopCas?
    case TakeHandle => w.pc.RemoveHandle? && s.scan.None?
    case Leave => w.pc.Leaving?
  }

  function LoadCount(s: State, w: Worker): WorkerPc
    requires w.pc.MaybeStop? || w.pc.CheckWorkers? || w.pc.CheckTasks?
  {
    match w.pc
    case MaybeStop => CheckWorkers(s.activeWorkers)
    case CheckWorkers(seen) => CheckTasks(seen, s.activeWorkers)
    case CheckTasks(seen, workers) =>
      if workers > Wrapped(s.activeTasks) && workers > s.coreSize then StopCas(seen) else Looping
  }

  function DoStop(s: State, i: nat, step: StopStep): State
    requires StopEnabled(s, i, step)
  {
    var w := s.workers[i];
    match step
    case TimeOut => Sets(s, i, w.(pc := MaybeStop))
    case LoadCounts => Sets(s, i, w.(pc := LoadCount(s, w)))
    case Cas =>
      if s.activeWorkers == w.pc.seen then Sets(s, i, w.(pc := RemoveHandle)).(activeWorkers := w.pc.seen - 1)
      else Sets(s, i, w.(pc := MaybeStop))
    case TakeHandle => Sets(s, i, w.(pc := Leaving)).(handles := Without(s.handles, i))
    case Leave => Sets(s, i, w.(pc := Gone, state := Finished))
  }

  predicate FindEnabled(s: State, i: nat, step: FindStep) {
    i < |s.workers| && s.workers[i].pc.Looping? &&
    match step
    case PopOwn => s.workers[i].deque != []
    case StealInjector(n) => s.workers[i].deque == [] && 0 < n <= |s.injector|
    case StealWorker(v, n) => s.workers[i].deque == [] && v < |s.workers| && v != i && 0 < n <= |s.workers[v].deque|
  }

  function DoFind(s: State, i: nat, step: FindStep): State
    requires FindEnabled(s, i, step)
  {
    var w := s.workers[i];
    match step
    case PopOwn => Sets(s, i, w.(pc := Got(w.deque[0]), deque := w.deque[1..]))
    case StealInjector(n) =>
      Sets(s, i, w.(pc := Got(s.injector[0]), deque := s.injector[1..n])).(injector := s.injector[n..])
    case StealWorker(v, n) =>
      var from := s.workers[v];
      Sets(Sets(s, v, from.(deque := from.deque[n..])), i, w.(pc := Got(from.deque[0]), deque := from.deque[1..n]))
  }

  predicate TaskEnabled(s: State, i: nat, step: TaskStep) {
    i < |s.workers| &&
    match step
    case StartTask => s.workers[i].pc.Got?
    case EndTask(_) => s.workers[i].pc.Run?
    case UncountTask => s.workers[i].pc.Ended?
    case StoreState => s.workers[i].pc.Report?
  }

  function DoTask(s: State, i: nat, step: TaskStep): State
    requires TaskEnabled(s, i, step)
  {
    var w := s.workers[i];
    match step
    case StartTask => Sets(s, i, w.(pc := Run(w.pc.task), state := Running))
    case EndTask(panics) => Sets(s, i, w.(pc := Ended(panics))).(finished := s.finished + multiset{w.pc.task})
    case UncountTask => Sets(s, i, w.(pc := Report(w.pc.panicked))).(activeTasks := s.activeTasks - 1)
    case StoreState =>
      if w.pc.panicked then Sets(s, i, w.(pc := Gone, state := Panicked))
      else Sets(s, i, w.(pc := Looping, state := Idle))
  }

  predicate Enabled(s: State, e: Event) {
    match e
    case Submitting(t, step) => SubmitEnabled(s, t, step)
    case Stopping(i, step) => StopEnabled(s, i, step)
    case Finding(i, step) => FindEnabled(s, i, step)
    case Working(i, step) => TaskEnabled(s, i, step)
    case BeginScan => s.scan.None?
    case ScanNext => s.scan.Some? && s.scan.value.next < |s.handles| && s.handles[s.scan.value.next] < |s.workers|
    case EndScan => s.scan.Some? && s.scan.value.next >= |s.handles|
  }

  function Scanned(s: State): Scan
    requires Enabled(s, ScanNext)
  {
    var sc := s.scan.value;
    var h := s.handles[sc.next];
    if s.workers[h].state == Running then Scan(sc.next + 1, sc.count + 1, sc.eligible, sc.counted + {h})
    else sc.(next := sc.next + 1)
  }

  function Do(s: State, e: Event): State
    requires Enabled(s, e)
  {
    match e
    case Submitting(t, step) => DoSubmit(s, t, step)
    case Stopping(i, step) => DoStop(s, i, step)
    case Finding(i, step) => DoFind(s, i, step)
    case Working(i, step) => DoTask(s, i, step)
    case BeginScan => s.(scan := Some(Scan(0, 0, Active(s.workers) * (set h | h in s.handles), {})))
    case ScanNext => s.(scan := Some(Scanned(s)))
    case EndScan => s.(scan := None, results := s.results + [s.scan.value.count])
  }

  ghost predicate IsRun(run: seq<State>, events: seq<Event>, maxSize: nat, coreSize: nat, threads: nat) {
    && |run| == |events| + 1 && run[0] == Initial(maxSize, coreSize, threads)
    && forall i :: 0 <= i < |events| ==> IsStep(run[i], events[i], run[i + 1])
  }

  ghost predicate IsStep(s: State, e: Event, s': State) {
    Enabled(s, e) && s' == Do(s, e)
  }

  // ---------------------------------------------------------------------------------------------
  // Who counts as active
  // ---------------------------------------------------------------------------------------------

  /** A worker counts until its own decrement; one that has panicked counts for ever. */
  predicate CountsAsActive(w: Worker) {
    !w.pc.RemoveHandle? && !w.pc.Leaving? && !(w.pc.Gone? && w.state != Panicked)
  }

  function Active(workers: seq<Worker>): (active: set<nat>)
    ensures forall i :: i in active ==> i < |workers|
  {
    set i: nat | i < |workers| && CountsAsActive(workers[i])
  }

  function Reservations(submitters: seq<SubmitPc>): set<nat> {
    set i: nat | i < |submitters| && submitters[i].Reserved?
  }

  // ---------------------------------------------------------------------------------------------
  // The worker count
  // ---------------------------------------------------------------------------------------------

  /** Every unit of the count is a worker that has not stopped, a place reserved for one about to be spawned,
      or one that could not be spawned. */
  ghost predicate CountRight(s: State) {
    && s.activeWorkers == |Active(s.workers)| + |Reservations(s.submitters)| + s.failedSpawns
    && s.activeWorkers <= s.maxSize
  }

  /** What a worker's place in its loop says about it. */
  ghost predicate WorkerRight(w: Worker) {
    && (w.state.Running? <==> w.pc.Run? || w.pc.Ended? || w.pc.Report?)
    && (w.state.Finished? || w.state.Panicked? <==> w.pc.Gone?)
    && (IsStopping(w) || w.state.Finished? ==> w.deque == [])
    && (w.pc.CheckWorkers? || w.pc.CheckTasks? || w.pc.StopCas? ==> w.pc.seen >= 1)
  }

  predicate IsStopping(w: Worker) {
    w.pc.MaybeStop? || w.pc.CheckWorkers? || w.pc.CheckTasks? || w.pc.StopCas? || w.pc.RemoveHandle? || w.pc.Leaving?
  }

  ghost predicate WorkersRight(workers: seq<Worker>) {
    forall i :: 0 <= i < |workers| ==> WorkerRight(workers[i])
  }

  lemma ActiveAfter(workers: seq<Worker>, i: nat, w: Worker)
    requires i < |workers|
    ensures |Active(workers[i := w])| ==
            |Active(workers)| + (if CountsAsActive(w) then 1 else 0) - (if CountsAsActive(workers[i]) then 1 else 0)
  {
    var before, after := Active(workers), Active(workers[i := w]);
    assert after == if CountsAsActive(w) then before + {i} else before - {i};
    assert i in before <==> CountsAsActive(workers[i]);
  }

  lemma ActiveAfterSpawn(workers: seq<Worker>, w: Worker)
    requires CountsAsActive(w)
    ensures |Active(workers + [w])| == |Active(workers)| + 1
  {
    var before, after := Active(workers), Active(workers + [w]);
    forall i ensures i in after <==> i in before || i == |workers| {
      if 0 <= i < |workers| {
        assert (workers + [w])[i] == workers[i];
      }
    }
    assert after == before + {|workers|};
  }

  lemma ReservationsAfter(submitters: seq<SubmitPc>, i: nat, pc: SubmitPc)
    requires i < |submitters|
    ensures |Reservations(submitters[i := pc])| ==
            |Reservations(submitters)| + (if pc.Reserved? then 1 else 0) - (if submitters[i].Reserved? then 1 else 0)
  {
    var before, after := Reservations(submitters), Reservations(submitters[i := pc]);
    assert after == if pc.Reserved? then before + {i} else before - {i};
    assert i in before <==> submitters[i].Reserved?;
  }

  lemma SubmitKeepsCount(s: State, t: nat, step: SubmitStep)
    requires CountRight(s) && SubmitEnabled(s, t, step)
    ensures CountRight(DoSubmit(s, t, step))
  {
    ReservationsAfter(s.submitters, t, DoSubmit(s, t, step).submitters[t]);
    if step.Spawn? {
      ActiveAfterSpawn(s.workers, Worker(Idle, Looping, []));
    }
  }

  lemma StopKeepsCount(s: State, i: nat, step: StopStep)
    requires CountRight(s) && StopEnabled(s, i, step) && WorkerRight(s.workers[i])
    ensures CountRight(DoStop(s, i, step))
  {
    ActiveAfter(s.workers, i, DoStop(s, i, step).workers[i]);
  }

  lemma FindKeepsCount(s: State, i: nat, step: FindStep)
    requires CountRight(s) && FindEnabled(s, i, step)
    ensures CountRight(DoFind(s, i, step))
  {
    var w' := DoFind(s, i, step).workers[i];
    match step {
      case StealWorker(v, n) =>
        var robbed := s.workers[v].(deque := s.workers[v].deque[n..]);
        ActiveAfter(s.workers, v, robbed);
        ActiveAfter(s.workers[v := robbed], i, w');
      case _ => ActiveAfter(s.workers, i, w');
    }
  }

  lemma TaskKeepsCount(s: State, i: nat, step: TaskStep)
    requires CountRight(s) && TaskEnabled(s, i, step)
    ensures CountRight(DoTask(s, i, step))
  {
    ActiveAfter(s.workers, i, DoTask(s, i, step).workers[i]);
  }

  lemma SomeoneIsActive(s: State, i: nat)
    requires CountRight(s) && i < |s.workers| && CountsAsActive(s.workers[i])
    ensures s.activeWorkers >= 1
  {
    assert i in Active(s.workers);
  }

  // ---------------------------------------------------------------------------------------------
  // Workers
  // ---------------------------------------------------------------------------------------------

  /** Only the worker's own entry changes, except that a victim of stealing loses tasks. */
  ghost predicate OthersKeep(workers: seq<Worker>, workers': seq<Worker>, i: nat) {
    && |workers'| == |workers|
    && forall k :: 0 <= k < |workers| && k != i ==> SameButRobbed(workers[k], workers'[k])
  }

  ghost predicate SameButRobbed(w: Worker, w': Worker) {
    w'.state == w.state && w'.pc == w.pc && (w.deque == [] ==> w'.deque == [])
  }

  lemma WorkersRightAfter(workers: seq<Worker>, workers': seq<Worker>, i: nat)
    requires WorkersRight(workers) && OthersKeep(workers, workers', i) && i < |workers| && WorkerRight(workers'[i])
    ensures WorkersRight(workers')
  {
    forall k | 0 <= k < |workers'| ensures WorkerRight(workers'[k]) {
      assert WorkerRight(workers[k]);
      assert k != i ==> SameButRobbed(workers[k], workers'[k]);
    }
  }

  lemma SubmitKeepsWorkersRight(s: State, t: nat, step: SubmitStep)
    requires WorkersRight(s.workers) && SubmitEnabled(s, t, step)
    ensures WorkersRight(DoSubmit(s, t, step).workers)
  {
  }

  lemma StopKeepsWorkersRight(s: State, i: nat, step: StopStep)
    requires CountRight(s) && WorkersRight(s.workers) && StopEnabled(s, i, step)
    ensures WorkersRight(DoStop(s, i, step).workers)
  {
    assert WorkerRight(s.workers[i]);
    if step.LoadCounts? {
      SomeoneIsActive(s, i);
    }
    WorkersRightAfter(s.workers, DoStop(s, i, step).workers, i);
  }

  lemma FindKeepsWorkersRight(s: State, i: nat, step: FindStep)
    requires WorkersRight(s.workers) && FindEnabled(s, i, step)
    ensures WorkersRight(DoFind(s, i, step).workers)
  {
    assert WorkerRight(s.workers[i]);
    WorkersRightAfter(s.workers, DoFind(s, i, step).workers, i);
  }

  lemma TaskKeepsWorkersRight(s: State, i: nat, step: TaskStep)
    requires WorkersRight(s.workers) && TaskEnabled(s, i, step)
    ensures WorkersRight(DoTask(s, i, step).workers)
  {
    assert WorkerRight(s.workers[i]);
    WorkersRightAfter(s.workers, DoTask(s, i, step).workers, i);
  }

  // ---------------------------------------------------------------------------------------------
  // Handles and scans
  // ---------------------------------------------------------------------------------------------

  ghost predicate HandlesRight(s: State) {
    && Distinct(s.handles) && (forall h :: h in s.handles ==> h < |s.workers|)
    && (forall t :: 0 <= t < |s.submitters| && s.submitters[t].Spawned? ==>
          s.submitters[t].id < |s.workers| && s.submitters[t].id !in s.handles)
    && forall t, u :: 0 <= t < u < |s.submitters| && s.submitters[t].Spawned? && s.submitters[u].Spawned? ==>
          s.submitters[t].id != s.submitters[u].id
  }

  /** The workers found running were active when the scan began, and no other can be found running. */
  ghost predicate ScanRight(s: State) {
    s.scan.Some? ==>
      var sc := s.scan.value;
      && sc.next <= |s.handles| && sc.count == |sc.counted| && sc.counted <= sc.eligible
      && (forall h :: h in sc.counted ==> h in s.handles[..sc.next])
      && |sc.eligible| <= s.maxSize
      && forall h :: h in s.handles && h !in sc.eligible ==> h < |s.workers| && !CountsAsActive(s.workers[h])
  }

  ghost predicate ResultsRight(s: State) {
    forall i :: 0 <= i < |s.results| ==> s.results[i] <= s.maxSize
  }

  /** Only the handle removed is missing. */
  lemma WithoutKeepsDistinct(handles: seq<nat>, id: nat)
    requires Distinct(handles)
    ensures Distinct(Without(handles, id))
    ensures forall h :: h in Without(handles, id) <==> h in handles && h != id
  {
    if id in handles {
      var p, last, rest := IndexOf(handles, id), |handles| - 1, Without(handles, id);
      forall h | h in handles && h != id ensures h in rest {
        var k :| 0 <= k < |handles| && handles[k] == h;
        assert rest[if k == last then p else k] == h;
      }
    }
  }

  lemma SubmitKeepsHandles(s: State, t: nat, step: SubmitStep)
    requires HandlesRight(s) && SubmitEnabled(s, t, step)
    ensures HandlesRight(DoSubmit(s, t, step))
  {
  }

  lemma HandlesRightAfter(s: State, s': State)
    requires HandlesRight(s) && |s'.workers| == |s.workers| && s'.submitters == s.submitters
    requires Distinct(s'.handles) && forall h :: h in s'.handles ==> h in s.handles
    ensures HandlesRight(s')
  {
  }

  /** What a worker's step leaves alone, and that a worker that has stopped counting never counts again. */
  ghost predicate WorkerStep(s: State, s': State) {
    && |s'.workers| == |s.workers| && s'.submitters == s.submitters && s'.scan == s.scan
    && s'.maxSize == s.maxSize && s'.results == s.results && s'.submitted == s.submitted
    && (s.scan.Some? ==> s'.handles == s.handles)
    && Distinct(s'.handles) && (forall h :: h in s'.handles ==> h in s.handles)
    && forall h :: 0 <= h < |s.workers| && !CountsAsActive(s.workers[h]) ==> !CountsAsActive(s'.workers[h])
  }

  lemma StopIsWorkerStep(s: State, i: nat, step: StopStep)
    requires HandlesRight(s) && StopEnabled(s, i, step) && WorkerRight(s.workers[i])
    ensures WorkerStep(s, DoStop(s, i, step))
  {
    WithoutKeepsDistinct(s.handles, i);
  }

  lemma FindIsWorkerStep(s: State, i: nat, step: FindStep)
    requires HandlesRight(s) && FindEnabled(s, i, step)
    ensures WorkerStep(s, DoFind(s, i, step))
  {
  }

  lemma TaskIsWorkerStep(s: State, i: nat, step: TaskStep)
    requires HandlesRight(s) && TaskEnabled(s, i, step)
    ensures WorkerStep(s, DoTask(s, i, step))
  {
  }

  lemma WorkerStepKeepsScan(s: State, s': State)
    requires HandlesRight(s) && ScanRight(s) && ResultsRight(s) && WorkerStep(s, s')
    ensures HandlesRight(s') && ScanRight(s') && ResultsRight(s')
  {
    HandlesRightAfter(s, s');
  }

  lemma SubmitKeepsScan(s: State, t: nat, step: SubmitStep)
    requires ScanRight(s) && ResultsRight(s) && SubmitEnabled(s, t, step)
    ensures ScanRight(DoSubmit(s, t, step)) && ResultsRight(DoSubmit(s, t, step))
    ensures DoSubmit(s, t, step).maxSize == s.maxSize
  {
  }

  lemma ScanStarts(s: State)
    requires CountRight(s) && HandlesRight(s) && s.scan.None?
    ensures ScanRight(Do(s, BeginScan))
  {
    var active := Active(s.workers);
    var eligible := active * (set h | h in s.handles);
    assert |active| == |eligible| + |active - eligible| by {
      assert active == eligible + (active - eligible);
    }
  }

  lemma ScanContinues(s: State)
    requires ScanRight(s) && HandlesRight(s) && WorkersRight(s.workers) && Enabled(s, ScanNext)
    ensures ScanRight(Do(s, ScanNext))
  {
    var sc := s.scan.value;
    var h := s.handles[sc.next];
    assert WorkerRight(s.workers[h]);
    assert s.handles[..sc.next + 1] == s.handles[..sc.next] + [h];
    assert h !in s.handles[..sc.next];
    if s.workers[h].state == Running {
      assert CountsAsActive(s.workers[h]) && h in sc.eligible;
      assert h !in sc.counted;
    }
  }

  lemma ScanEnds(s: State)
    requires ScanRight(s) && ResultsRight(s) && Enabled(s, EndScan)
    ensures ResultsRight(Do(s, EndScan))
  {
    var sc := s.scan.value;
    assert sc.eligible == sc.counted + (sc.eligible - sc.counted);
  }

  // ---------------------------------------------------------------------------------------------
  // Where the tasks are
  // ---------------------------------------------------------------------------------------------

  /** What a worker has taken and not finished. */
  function InHand(w: Worker): multiset<TaskId> {
    if w.pc.Got? || w.pc.Run? then multiset{w.pc.task} else multiset{}
  }

  function HeldBy(w: Worker): multiset<TaskId> {
    multiset(w.deque) + InHand(w)
  }

  function Held(workers: seq<Worker>, t: TaskId): nat {
    if workers == [] then 0 else Held(workers[..|workers| - 1], t) + HeldBy(workers[|workers| - 1])[t]
  }

  /** The places a task is in: the injector, a deque, a worker's hands, or finished. */
  function Places(s: State, t: TaskId): nat {
    multiset(s.injector)[t] + Held(s.workers, t) + s.finished[t]
  }

  /** Tasks are numbered as they are submitted, and each is in one place. */
  ghost predicate Conserved(s: State) {
    && (forall k :: 0 <= k < |s.submitted| ==> s.submitted[k] == k)
    && forall t: TaskId :: Places(s, t) == if t < |s.submitted| then 1 else 0
  }

  lemma {:induction false} HeldAfter(workers: seq<Worker>, i: nat, w: Worker, t: TaskId)
    requires i < |workers|
    ensures Held(workers[i := w], t) + HeldBy(workers[i])[t] == Held(workers, t) + HeldBy(w)[t]
  {
    var last := |workers| - 1;
    if i == last {
      assert workers[i := w][..last] == workers[..last];
    } else {
      HeldAfter(workers[..last], i, w, t);
      assert workers[i := w][..last] == workers[..last][i := w];
    }
  }

  lemma HeldAfterSpawn(workers: seq<Worker>, w: Worker, t: TaskId)
    requires HeldBy(w) == multiset{}
    ensures Held(workers + [w], t) == Held(workers, t)
  {
    assert (workers + [w])[..|workers|] == workers;
  }

  /** The steps of a submitting thread other than the push leave the tasks where they are. */
  lemma SubmitHolds(s: State, t: nat, step: SubmitStep)
    requires SubmitEnabled(s, t, step)
    ensures var s' := DoSubmit(s, t, step);
            && s'.finished == s.finished
            && s'.injector == (if step.Push? then s.injector + [|s.submitted|] else s.injector)
            && s'.submitted == (if step.Push? then s.submitted + [|s.submitted|] else s.submitted)
            && s'.workers == if step.Spawn? then s.workers + [Worker(Idle, Looping, [])] else s.workers
  {
  }

  lemma PushPlaces(s: State, s': State, t: TaskId)
    requires s'.injector == s.injector + [|s.submitted|] && s'.workers == s.workers && s'.finished == s.finished
    ensures Places(s', t) == Places(s, t) + if t == |s.submitted| then 1 else 0
  {
    var pushed: TaskId := |s.submitted|;
    assert multiset(s.injector + [pushed]) == multiset(s.injector) + multiset([pushed]);
  }

  lemma SubmitPlaces(s: State, t: nat, step: SubmitStep, u: TaskId)
    requires SubmitEnabled(s, t, step)
    ensures Places(DoSubmit(s, t, step), u) == Places(s, u) + if step.Push? && u == |s.submitted| then 1 else 0
  {
    SubmitHolds(s, t, step);
    if step.Push? {
      PushPlaces(s, DoSubmit(s, t, step), u);
    } else {
      HeldAfterSpawn(s.workers, Worker(Idle, Looping, []), u);
    }
  }

  lemma SubmitConserves(s: State, t: nat, step: SubmitStep)
    requires Conserved(s) && SubmitEnabled(s, t, step)
    ensures Conserved(DoSubmit(s, t, step))
  {
    var s' := DoSubmit(s, t, step);
    SubmitHolds(s, t, step);
    forall u: TaskId ensures Places(s', u) == if u < |s'.submitted| then 1 else 0 {
      assert Places(s, u) == if u < |s.submitted| then 1 else 0;
      SubmitPlaces(s, t, step, u);
    }
  }

  lemma TakeBatch(from: seq<TaskId>, n: nat)
    requires 0 < n <= |from|
    ensures multiset(from) == multiset(from[n..]) + multiset(from[1..n]) + multiset{from[0]}
  {
    assert from == [from[0]] + from[1..n] + from[n..];
  }

  /** One worker's holdings change by what the injector and the finished tasks lose or gain. */
  lemma SetKeepsPlaces(s: State, s': State, i: nat, t: TaskId)
    requires i < |s.workers| && |s'.workers| == |s.workers| && s'.workers == s.workers[i := s'.workers[i]]
    requires multiset(s'.injector)[t] + HeldBy(s'.workers[i])[t] + s'.finished[t]
          == multiset(s.injector)[t] + HeldBy(s.workers[i])[t] + s.finished[t]
    ensures Places(s', t) == Places(s, t)
  {
    HeldAfter(s.workers, i, s'.workers[i], t);
  }

  lemma StealKeepsPlaces(s: State, i: nat, v: nat, n: nat, t: TaskId)
    requires FindEnabled(s, i, StealWorker(v, n))
    ensures Places(DoFind(s, i, StealWorker(v, n)), t) == Places(s, t)
  {
    var from, w := s.workers[v], s.workers[i];
    var robbed := from.(deque := from.deque[n..]);
    var thief := w.(pc := Got(from.deque[0]), deque := from.deque[1..n]);
    TakeBatch(from.deque, n);
    HeldAfter(s.workers, v, robbed, t);
    var middle := s.workers[v := robbed];
    HeldAfter(middle, i, thief, t);
    assert middle[i] == w;
    assert HeldBy(w) == multiset{} && HeldBy(thief) == multiset(from.deque[1..n]) + multiset{from.deque[0]};
    assert HeldBy(from)[t] == HeldBy(robbed)[t] + HeldBy(thief)[t];
  }

  lemma StealInjectorKeepsPlaces(s: State, i: nat, n: nat, t: TaskId)
    requires FindEnabled(s, i, StealInjector(n))
    ensures Places(DoFind(s, i, StealInjector(n)), t) == Places(s, t)
  {
    var w, w' := s.workers[i], DoFind(s, i, StealInjector(n)).workers[i];
    TakeBatch(s.injector, n);
    assert HeldBy(w) == multiset{} && HeldBy(w') == multiset(s.injector[1..n]) + multiset{s.injector[0]};
    SetKeepsPlaces(s, DoFind(s, i, StealInjector(n)), i, t);
  }

  lemma PopKeepsPlaces(s: State, i: nat, t: TaskId)
    requires FindEnabled(s, i, PopOwn)
    ensures Places(DoFind(s, i, PopOwn), t) == Places(s, t)
  {
    var w, w' := s.workers[i], DoFind(s, i, PopOwn).workers[i];
    assert w.deque == [w.deque[0]] + w.deque[1..];
    assert HeldBy(w) == HeldBy(w');
    SetKeepsPlaces(s, DoFind(s, i, PopOwn), i, t);
  }

  lemma FindKeepsPlaces(s: State, i: nat, step: FindStep, t: TaskId)
    requires FindEnabled(s, i, step)
    ensures Places(DoFind(s, i, step), t) == Places(s, t)
  {
    match step
    case PopOwn => PopKeepsPlaces(s, i, t);
    case StealInjector(n) => StealInjectorKeepsPlaces(s, i, n, t);
    case StealWorker(v, n) => StealKeepsPlaces(s, i, v, n, t);
  }

  /** Only worker `i` changes, and it holds the same tasks as before. */
  ghost predicate HoldsSame(s: State, s': State, i: nat) {
    && i < |s.workers| && |s'.workers| == |s.workers| && s'.workers == s.workers[i := s'.workers[i]]
    && s'.injector == s.injector && s'.finished == s.finished
    && s'.workers[i].deque == s.workers[i].deque && InHand(s'.workers[i]) == InHand(s.workers[i])
  }

  lemma HoldingKeepsPlaces(s: State, s': State, i: nat, t: TaskId)
    requires HoldsSame(s, s', i)
    ensures Places(s', t) == Places(s, t)
  {
    SetKeepsPlaces(s, s', i, t);
  }

  lemma StopHolds(s: State, i: nat, step: StopStep)
    requires StopEnabled(s, i, step)
    ensures HoldsSame(s, DoStop(s, i, step), i)
  {
    var s' := DoStop(s, i, step);
    var w' := s'.workers[i];
    StopSetsOne(s, i, step);
    assert w'.deque == s.workers[i].deque && InHand(w') == multiset{} == InHand(s.workers[i]);
  }

  lemma StopSetsOne(s: State, i: nat, step: StopStep)
    requires StopEnabled(s, i, step)
    ensures var s' := DoStop(s, i, step);
            && s'.workers == s.workers[i := s'.workers[i]] && s'.injector == s.injector && s'.finished == s.finished
            && s'.workers[i].deque == s.workers[i].deque
            && !s'.workers[i].pc.Got? && !s'.workers[i].pc.Run? && !s.workers[i].pc.Got? && !s.workers[i].pc.Run?
  {
  }

  lemma TaskHolds(s: State, i: nat, step: TaskStep)
    requires TaskEnabled(s, i, step) && !step.EndTask?
    ensures HoldsSame(s, DoTask(s, i, step), i)
  {
  }

  lemma StopKeepsPlaces(s: State, i: nat, step: StopStep, t: TaskId)
    requires StopEnabled(s, i, step)
    ensures Places(DoStop(s, i, step), t) == Places(s, t)
  {
    StopHolds(s, i, step);
    HoldingKeepsPlaces(s, DoStop(s, i, step), i, t);
  }

  lemma EndKeepsPlaces(s: State, s': State, i: nat, t: TaskId)
    requires i < |s.workers| && s.workers[i].pc.Run? && s'.injector == s.injector
    requires |s'.workers| == |s.workers| && s'.workers == s.workers[i := s'.workers[i]]
    requires s'.workers[i].deque == s.workers[i].deque && InHand(s'.workers[i]) == multiset{}
    requires s'.finished == s.finished + multiset{s.workers[i].pc.task}
    ensures Places(s', t) == Places(s, t)
  {
    SetKeepsPlaces(s, s', i, t);
  }

  lemma TaskKeepsPlaces(s: State, i: nat, step: TaskStep, t: TaskId)
    requires TaskEnabled(s, i, step)
    ensures Places(DoTask(s, i, step), t) == Places(s, t)
  {
    if step.EndTask? {
      EndKeepsPlaces(s, DoTask(s, i, step), i, t);
    } else {
      TaskHolds(s, i, step);
      HoldingKeepsPlaces(s, DoTask(s, i, step), i, t);
    }
  }

  lemma WorkerStepConserves(s: State, s': State)
    requires Conserved(s) && s'.submitted == s.submitted && forall t: TaskId :: Places(s', t) == Places(s, t)
    ensures Conserved(s')
  {
  }

  // ---------------------------------------------------------------------------------------------
  // Every run
  // ---------------------------------------------------------------------------------------------

  ghost predicate Inv(s: State) {
    CountRight(s) && WorkersRight(s.workers) && HandlesRight(s) && ScanRight(s) && ResultsRight(s) && Conserved(s)
  }

  lemma InitialInv(maxSize: nat, coreSize: nat, threads: nat)
    ensures Inv(Initial(maxSize, coreSize, threads))
  {
    var s := Initial(maxSize, coreSize, threads);
    assert Active(s.workers) == {} && Reservations(s.submitters) == {};
    forall t: TaskId ensures Places(s, t) == 0 {
    }
  }

  lemma SubmitKeepsInv(s: State, t: nat, step: SubmitStep)
    requires Inv(s) && SubmitEnabled(s, t, step)
    ensures Inv(DoSubmit(s, t, step)) && DoSubmit(s, t, step).maxSize == s.maxSize
  {
    SubmitKeepsCount(s, t, step);
    SubmitKeepsWorkersRight(s, t, step);
    SubmitKeepsHandles(s, t, step);
    SubmitKeepsScan(s, t, step);
    SubmitConserves(s, t, step);
  }

  lemma WorkerStepKeepsInv(s: State, s': State)
    requires Inv(s) && WorkerStep(s, s') && CountRight(s') && WorkersRight(s'.workers)
    requires forall t: TaskId :: Places(s', t) == Places(s, t)
    ensures Inv(s')
  {
    WorkerStepKeepsScan(s, s');
    WorkerStepConserves(s, s');
  }

  lemma StopKeepsInv(s: State, i: nat, step: StopStep)
    requires Inv(s) && StopEnabled(s, i, step)
    ensures Inv(DoStop(s, i, step)) && DoStop(s, i, step).maxSize == s.maxSize
  {
    assert WorkerRight(s.workers[i]);
    StopKeepsCount(s, i, step);
    StopKeepsWorkersRight(s, i, step);
    StopIsWorkerStep(s, i, step);
    forall t: TaskId ensures Places(DoStop(s, i, step), t) == Places(s, t) {
      StopKeepsPlaces(s, i, step, t);
    }
    WorkerStepKeepsInv(s, DoStop(s, i, step));
  }

  lemma FindKeepsInv(s: State, i: nat, step: FindStep)
    requires Inv(s) && FindEnabled(s, i, step)
    ensures Inv(DoFind(s, i, step)) && DoFind(s, i, step).maxSize == s.maxSize
  {
    FindKeepsCount(s, i, step);
    FindKeepsWorkersRight(s, i, step);
    FindIsWorkerStep(s, i, step);
    forall t: TaskId ensures Places(DoFind(s, i, step), t) == Places(s, t) {
      FindKeepsPlaces(s, i, step, t);
    }
    WorkerStepKeepsInv(s, DoFind(s, i, step));
  }

  lemma TaskKeepsInv(s: State, i: nat, step: TaskStep)
    requires Inv(s) && TaskEnabled(s, i, step)
    ensures Inv(DoTask(s, i, step)) && DoTask(s, i, step).maxSize == s.maxSize
  {
    TaskKeepsCount(s, i, step);
    TaskKeepsWorkersRight(s, i, step);
    TaskIsWorkerStep(s, i, step);
    forall t: TaskId ensures Places(DoTask(s, i, step), t) == Places(s, t) {
      TaskKeepsPlaces(s, i, step, t);
    }
    WorkerStepKeepsInv(s, DoTask(s, i, step));
  }

  /** A scan changes only its own progress and, when it ends, the results. */
  lemma ScanStep(s: State, s': State)
    requires Inv(s) && s' == s.(scan := s'.scan, results := s'.results) && ScanRight(s') && ResultsRight(s')
    ensures Inv(s')
  {
    forall t: TaskId ensures Places(s', t) == Places(s, t) {
    }
  }

  lemma StepKeepsInv(s: State, e: Event)
    requires Inv(s) && Enabled(s, e)
    ensures Inv(Do(s, e)) && Do(s, e).maxSize == s.maxSize
  {
    match e
    case Submitting(t, step) => SubmitKeepsInv(s, t, step);
    case Stopping(i, step) => StopKeepsInv(s, i, step);
    case Finding(i, step) => FindKeepsInv(s, i, step);
    case Working(i, step) => TaskKeepsInv(s, i, step);
    case BeginScan =>
      ScanStarts(s);
      ScanStep(s, Do(s, e));
    case ScanNext =>
      ScanContinues(s);
      ScanStep(s, Do(s, e));
    case EndScan =>
      ScanEnds(s);
      ScanStep(s, Do(s, e));
  }

  lemma {:induction false} RunKeepsInv(run: seq<State>, events: seq<Event>, maxSize: nat, coreSize: nat, threads: nat,
                                       i: nat)
    requires IsRun(run, events, maxSize, coreSize, threads) && i < |run|
    ensures Inv(run[i]) && run[i].maxSize == maxSize
  {
    if i == 0 {
      InitialInv(maxSize, coreSize, threads);
    } else {
      RunKeepsInv(run, events, maxSize, coreSize, threads, i - 1);
      assert IsStep(run[i - 1], events[i - 1], run[i]);
      StepKeepsInv(run[i - 1], events[i - 1]);
    }
  }

  /** However a scan interleaves with workers that start, stop and panic, it never reports more running workers
      than the pool may have, so subtracting its result from the pool's size does not underflow. */
  lemma RunningNeverExceedsMax(run: seq<State>, events: seq<Event>, maxSize: nat, coreSize: nat, threads: nat, i: nat,
                               k: nat)
    requires IsRun(run, events, maxSize, coreSize, threads) && i < |run| && k < |run[i].results|
    ensures maxSize - run[i].results[k] >= 0
  {
    RunKeepsInv(run, events, maxSize, coreSize, threads, i);
  }

  /** The decrement of a stopping worker never takes the count below zero, whatever it had loaded before. */
  lemma StopNeverUnderflows(run: seq<State>, events: seq<Event>, maxSize: nat, coreSize: nat, threads: nat, i: nat,
                            w: nat)
    requires IsRun(run, events, maxSize, coreSize, threads) && i < |run|
    requires w < |run[i].workers| && run[i].workers[w].pc.StopCas?
    ensures run[i].workers[w].pc.seen - 1 >= 0
    ensures 0 <= run[i].activeWorkers <= maxSize
  {
    RunKeepsInv(run, events, maxSize, coreSize, threads, i);
    assert WorkerRight(run[i].workers[w]);
  }

  lemma {:induction false} HeldHas(workers: seq<Worker>, i: nat, t: TaskId)
    requires i < |workers|
    ensures Held(workers, t) >= HeldBy(workers[i])[t]
  {
    if i < |workers| - 1 {
      HeldHas(workers[..|workers| - 1], i, t);
    }
  }

  lemma {:induction false} HeldHasBoth(workers: seq<Worker>, i: nat, k: nat, t: TaskId)
    requires i < k < |workers|
    ensures Held(workers, t) >= HeldBy(workers[i])[t] + HeldBy(workers[k])[t]
  {
    if k == |workers| - 1 {
      HeldHas(workers[..k], i, t);
    } else {
      HeldHasBoth(workers[..|workers| - 1], i, k, t);
    }
  }

  /** A task about to start has not finished, nobody else has it, and it is queued nowhere: it runs at most
      once, even when workers panic. */
  lemma TasksRunOnce(run: seq<State>, events: seq<Event>, maxSize: nat, coreSize: nat, threads: nat, i: nat, w: nat)
    requires IsRun(run, events, maxSize, coreSize, threads) && i < |run|
    requires w < |run[i].workers| && (run[i].workers[w].pc.Got? || run[i].workers[w].pc.Run?)
    ensures var t, s := run[i].workers[w].pc.task, run[i];
            && t in s.submitted && t !in s.finished && t !in s.injector && t !in s.workers[w].deque
            && forall k :: 0 <= k < |s.workers| && k != w ==> t !in HeldBy(s.workers[k])
  {
    RunKeepsInv(run, events, maxSize, coreSize, threads, i);
    var t, s := run[i].workers[w].pc.task, run[i];
    HeldHas(s.workers, w, t);
    assert HeldBy(s.workers[w])[t] == multiset(s.workers[w].deque)[t] + 1;
    assert Places(s, t) == 1 && t < |s.submitted| && s.submitted[t] == t;
    forall k | 0 <= k < |s.workers| && k != w ensures t !in HeldBy(s.workers[k]) {
      if k < w { HeldHasBoth(s.workers, k, w, t); } else { HeldHasBoth(s.workers, w, k, t); }
    }
    NotIn(s, w, t);
  }

  lemma NotIn(s: State, w: nat, t: TaskId)
    requires w < |s.workers| && Places(s, t) == 1 && Held(s.workers, t) >= 1 && multiset(s.workers[w].deque)[t] == 0
    ensures t !in s.finished && t !in s.injector && t !in s.workers[w].deque
  {
    assert multiset(s.injector)[t] == 0 && s.finished[t] == 0;
    assert t !in multiset(s.injector) && t !in multiset(s.workers[w].deque);
  }

  /** Every submitted task is in exactly one place, and a worker that has stopped for want of work has left none
      behind. */
  lemma TasksConserved(run: seq<State>, events: seq<Event>, maxSize: nat, coreSize: nat, threads: nat, i: nat,
                       t: TaskId)
    requires IsRun(run, events, maxSize, coreSize, threads) && i < |run|
    ensures multiset(run[i].injector)[t] + Held(run[i].workers, t) + run[i].finished[t] ==
            if t < |run[i].submitted| then 1 else 0
    ensures forall w :: 0 <= w < |run[i].workers| && run[i].workers[w].state.Finished? ==> run[i].workers[w].deque == []
  {
    RunKeepsInv(run, events, maxSize, coreSize, threads, i);
    assert Places(run[i], t) == if t < |run[i].submitted| then 1 else 0;
    forall w | 0 <= w < |run[i].workers| && run[i].workers[w].state.Finished? ensures run[i].workers[w].deque == [] {
      assert WorkerRight(run[i].workers[w]);
    }
  }
}
