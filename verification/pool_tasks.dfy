/**
  What the tasks of the pool of src/sync/pool/inner_thread_pool.rs go through over whole runs: how they are counted,
  in which order they are taken, what a panic leaves, and which workers are listed.
 */
module PoolTasks {
  import opened Pool
  import opened PoolCalls
  import opened Sequences
  import opened Wrappers

  // ---------------------------------------------------------------------------------------------
  // The count of tasks
  // ---------------------------------------------------------------------------------------------

  /** The threads that have pushed a task and not counted it. */
  function Uncounted(submitters: seq<SubmitPc>): set<nat> {
    set i: nat | i < |submitters| && submitters[i].Pushed?
  }

  /** The workers that have finished a task and not taken it off the count. */
  function Unreported(workers: seq<Worker>): set<nat> {
    set i: nat | i < |workers| && workers[i].pc.Ended?
  }

  /** The count is that of the tasks counted and not taken off: it runs behind at both ends. */
  ghost predicate TasksCounted(s: State) {
    s.activeTasks + |Uncounted(s.submitters)| == |s.submitted| - |s.finished| + |Unreported(s.workers)|
  }

  lemma UncountedAfter(submitters: seq<SubmitPc>, i: nat, pc: SubmitPc)
    requires i < |submitters|
    ensures |Uncounted(submitters[i := pc])| ==
            |Uncounted(submitters)| + (if pc.Pushed? then 1 else 0) - (if submitters[i].Pushed? then 1 else 0)
  {
    var before, after := Uncounted(submitters), Uncounted(submitters[i := pc]);
    assert after == if pc.Pushed? then before + {i} else before - {i};
    assert i in before <==> submitters[i].Pushed?;
  }

  lemma UnreportedAfter(workers: seq<Worker>, i: nat, w: Worker)
    requires i < |workers|
    ensures |Unreported(workers[i := w])| ==
            |Unreported(workers)| + (if w.pc.Ended? then 1 else 0) - (if workers[i].pc.Ended? then 1 else 0)
  {
    var before, after := Unreported(workers), Unreported(workers[i := w]);
    assert after == if w.pc.Ended? then before + {i} else before - {i};
    assert i in before <==> workers[i].pc.Ended?;
  }

  lemma UnreportedAfterSpawn(workers: seq<Worker>, w: Worker)
    requires !w.pc.Ended?
    ensures Unreported(workers + [w]) == Unreported(workers)
  {
    forall i ensures i in Unreported(workers + [w]) <==> i in Unreported(workers) {
      if 0 <= i < |workers| {
        assert (workers + [w])[i] == workers[i];
      }
    }
  }

  lemma SubmitKeepsTasksCounted(s: State, t: nat, step: SubmitStep)
    requires TasksCounted(s) && SubmitEnabled(s, t, step)
    ensures TasksCounted(DoSubmit(s, t, step))
  {
    UncountedAfter(s.submitters, t, DoSubmit(s, t, step).submitters[t]);
    UnreportedAfterSpawn(s.workers, Worker(Idle, Looping, []));
  }

  lemma StopKeepsTasksCounted(s: State, i: nat, step: StopStep)
    requires TasksCounted(s) && StopEnabled(s, i, step)
    ensures TasksCounted(DoStop(s, i, step))
  {
    UnreportedAfter(s.workers, i, DoStop(s, i, step).workers[i]);
  }

  lemma FindKeepsTasksCounted(s: State, i: nat, step: FindStep)
    requires TasksCounted(s) && FindEnabled(s, i, step)
    ensures TasksCounted(DoFind(s, i, step))
  {
    var w' := DoFind(s, i, step).workers[i];
    match step {
      case StealWorker(v, n) =>
        var robbed := s.workers[v].(deque := s.workers[v].deque[n..]);
        UnreportedAfter(s.workers, v, robbed);
        UnreportedAfter(s.workers[v := robbed], i, w');
      case _ => UnreportedAfter(s.workers, i, w');
    }
  }

  lemma TaskKeepsTasksCounted(s: State, i: nat, step: TaskStep)
    requires TasksCounted(s) && TaskEnabled(s, i, step)
    ensures TasksCounted(DoTask(s, i, step))
  {
    UnreportedAfter(s.workers, i, DoTask(s, i, step).workers[i]);
  }

  lemma StepKeepsTasksCounted(s: State, e: Event, s': State)
    requires TasksCounted(s) && IsStep(s, e, s')
    ensures TasksCounted(s')
  {
    match e
    case Submitting(t, step) => SubmitKeepsTasksCounted(s, t, step);
    case Stopping(i, step) => StopKeepsTasksCounted(s, i, step);
    case Finding(i, step) => FindKeepsTasksCounted(s, i, step);
    case Working(i, step) => TaskKeepsTasksCounted(s, i, step);
    case _ =>
  }

  // ---------------------------------------------------------------------------------------------
  // The order in which tasks are taken
  // ---------------------------------------------------------------------------------------------

  predicate Ascending(tasks: seq<TaskId>) {
    forall i, k :: 0 <= i < k < |tasks| ==> tasks[i] < tasks[k]
  }

  predicate OlderThanAll(task: TaskId, tasks: seq<TaskId>) {
    forall i :: 0 <= i < |tasks| ==> task < tasks[i]
  }

  /** Tasks are numbered as they are submitted, and wait in that order wherever they wait; a worker has taken an older
      one than those it keeps. */
  ghost predicate InOrder(s: State) {
    && Ascending(s.injector) && (forall i :: 0 <= i < |s.injector| ==> s.injector[i] < |s.submitted|)
    && forall i :: 0 <= i < |s.workers| ==> WorkerInOrder(s.workers[i])
  }

  predicate WorkerInOrder(w: Worker) {
    && Ascending(w.deque)
    && (w.pc.Got? || w.pc.Run? ==> OlderThanAll(w.pc.task, w.deque))
  }

  /** The first `n` of the tasks are taken, the first of them to be run. */
  lemma TakenInOrder(tasks: seq<TaskId>, n: nat, w: Worker)
    requires Ascending(tasks) && 0 < n <= |tasks|
    ensures Ascending(tasks[n..]) && WorkerInOrder(w.(pc := Got(tasks[0]), deque := tasks[1..n]))
  {
  }

  lemma WorkerSetInOrder(s: State, i: nat, w: Worker)
    requires InOrder(s) && i < |s.workers| && WorkerInOrder(w)
    ensures InOrder(Sets(s, i, w))
  {
  }

  lemma PopKeepsOrder(s: State, i: nat)
    requires InOrder(s) && FindEnabled(s, i, PopOwn)
    ensures InOrder(DoFind(s, i, PopOwn))
  {
    var w := s.workers[i];
    assert WorkerInOrder(w);
    TakenInOrder(w.deque, |w.deque|, w);
    assert w.deque[1..|w.deque|] == w.deque[1..];
    WorkerSetInOrder(s, i, w.(pc := Got(w.deque[0]), deque := w.deque[1..]));
  }

  lemma StealInjectorKeepsOrder(s: State, i: nat, n: nat)
    requires InOrder(s) && FindEnabled(s, i, StealInjector(n))
    ensures InOrder(DoFind(s, i, StealInjector(n)))
  {
    var w := s.workers[i];
    TakenInOrder(s.injector, n, w);
    WorkerSetInOrder(s, i, w.(pc := Got(s.injector[0]), deque := s.injector[1..n]));
  }

  lemma StealWorkerKeepsOrder(s: State, i: nat, v: nat, n: nat)
    requires InOrder(s) && FindEnabled(s, i, StealWorker(v, n))
    ensures InOrder(DoFind(s, i, StealWorker(v, n)))
  {
    var w, victim := s.workers[i], s.workers[v];
    assert WorkerInOrder(victim);
    TakenInOrder(victim.deque, n, w);
    var robbed := victim.(deque := victim.deque[n..]);
    assert WorkerInOrder(robbed);
    WorkerSetInOrder(s, v, robbed);
    WorkerSetInOrder(Sets(s, v, robbed), i, w.(pc := Got(victim.deque[0]), deque := victim.deque[1..n]));
  }

  lemma FindKeepsOrder(s: State, i: nat, step: FindStep)
    requires InOrder(s) && FindEnabled(s, i, step)
    ensures InOrder(DoFind(s, i, step))
  {
    match step
    case PopOwn => PopKeepsOrder(s, i);
    case StealInjector(n) => StealInjectorKeepsOrder(s, i, n);
    case StealWorker(v, n) => StealWorkerKeepsOrder(s, i, v, n);
  }

  lemma SubmitKeepsOrder(s: State, t: nat, step: SubmitStep)
    requires InOrder(s) && SubmitEnabled(s, t, step)
    ensures InOrder(DoSubmit(s, t, step))
  {
    SubmitHolds(s, t, step);
  }

  lemma StopKeepsOrder(s: State, i: nat, step: StopStep)
    requires InOrder(s) && StopEnabled(s, i, step)
    ensures InOrder(DoStop(s, i, step))
  {
    StopSetsOne(s, i, step);
    assert WorkerInOrder(s.workers[i]);
  }

  lemma TaskKeepsOrder(s: State, i: nat, step: TaskStep)
    requires InOrder(s) && TaskEnabled(s, i, step)
    ensures InOrder(DoTask(s, i, step))
  {
    assert WorkerInOrder(s.workers[i]);
  }

  lemma StepKeepsOrder(s: State, e: Event, s': State)
    requires InOrder(s) && IsStep(s, e, s')
    ensures InOrder(s')
  {
    match e
    case Submitting(t, step) => SubmitKeepsOrder(s, t, step);
    case Stopping(i, step) => StopKeepsOrder(s, i, step);
    case Finding(i, step) => FindKeepsOrder(s, i, step);
    case Working(i, step) => TaskKeepsOrder(s, i, step);
    case _ =>
  }

  // ---------------------------------------------------------------------------------------------
  // Which workers are listed
  // ---------------------------------------------------------------------------------------------

  predicate Awaiting(submitters: seq<SubmitPc>, w: nat) {
    exists t :: 0 <= t < |submitters| && submitters[t] == Spawned(w)
  }

  predicate HasLeft(w: Worker) {
    w.pc.Leaving? || (w.pc.Gone? && w.state.Finished?)
  }

  /** A worker that has not left is listed once the thread that spawned it has listed it. */
  ghost predicate WorkersListed(s: State) {
    forall w :: 0 <= w < |s.workers| ==> HasLeft(s.workers[w]) || Awaiting(s.submitters, w) || w in s.handles
  }

  lemma SubmitKeepsListed(s: State, t: nat, step: SubmitStep)
    requires WorkersListed(s) && SubmitEnabled(s, t, step)
    ensures WorkersListed(DoSubmit(s, t, step))
  {
    var s' := DoSubmit(s, t, step);
    forall w | 0 <= w < |s'.workers| ensures HasLeft(s'.workers[w]) || Awaiting(s'.submitters, w) || w in s'.handles {
      if w < |s.workers| {
        if Awaiting(s.submitters, w) {
          var u :| 0 <= u < |s.submitters| && s.submitters[u] == Spawned(w);
          assert u != t ==> s'.submitters[u] == Spawned(w);
        }
      } else {
        assert s'.submitters[t] == Spawned(w);
      }
    }
  }

  lemma StopKeepsListed(s: State, i: nat, step: StopStep)
    requires WorkersListed(s) && Distinct(s.handles) && StopEnabled(s, i, step)
    ensures WorkersListed(DoStop(s, i, step))
  {
    WithoutKeepsDistinct(s.handles, i);
    StopMoves(s, i, step);
  }

  lemma FindKeepsListed(s: State, i: nat, step: FindStep)
    requires WorkersListed(s) && FindEnabled(s, i, step)
    ensures WorkersListed(DoFind(s, i, step))
  {
  }

  lemma TaskKeepsListed(s: State, i: nat, step: TaskStep)
    requires WorkersListed(s) && TaskEnabled(s, i, step)
    ensures WorkersListed(DoTask(s, i, step))
  {
  }

  lemma StepKeepsListed(s: State, e: Event, s': State)
    requires WorkersListed(s) && Distinct(s.handles) && IsStep(s, e, s')
    ensures WorkersListed(s')
  {
    match e
    case Submitting(t, step) => SubmitKeepsListed(s, t, step);
    case Stopping(i, step) => StopKeepsListed(s, i, step);
    case Finding(i, step) => FindKeepsListed(s, i, step);
    case Working(i, step) => TaskKeepsListed(s, i, step);
    case _ =>
  }

  // ---------------------------------------------------------------------------------------------
  // Every run
  // ---------------------------------------------------------------------------------------------

  ghost predicate TasksRight(s: State) {
    TasksCounted(s) && InOrder(s) && WorkersListed(s)
  }

  lemma StartsRight(maxSize: nat, coreSize: nat, threads: nat)
    ensures TasksRight(Initial(maxSize, coreSize, threads))
  {
    var s := Initial(maxSize, coreSize, threads);
    assert Uncounted(s.submitters) == {} && Unreported(s.workers) == {};
  }

  lemma StepKeepsTasksRight(s: State, e: Event, s': State)
    requires TasksRight(s) && Distinct(s.handles) && IsStep(s, e, s')
    ensures TasksRight(s')
  {
    StepKeepsTasksCounted(s, e, s');
    StepKeepsOrder(s, e, s');
    StepKeepsListed(s, e, s');
  }

  lemma ListsOnce(run: seq<State>, events: seq<Event>, maxSize: nat, coreSize: nat, threads: nat, k: nat)
    requires IsRun(run, events, maxSize, coreSize, threads) && k < |run|
    ensures Distinct(run[k].handles)
  {
    RunKeepsInv(run, events, maxSize, coreSize, threads, k);
  }

  lemma {:induction false} StepsKeepTasksRight(run: seq<State>, events: seq<Event>, maxSize: nat, coreSize: nat, k: nat)
    requires Steps(run, events, maxSize, coreSize) && k < |run| && TasksRight(run[0])
    requires forall i :: 0 <= i < |run| ==> Distinct(run[i].handles)
    ensures TasksRight(run[k])
  {
    if k > 0 {
      StepsKeepTasksRight(run, events, maxSize, coreSize, k - 1);
      assert StepAt(run, events, maxSize, coreSize, k - 1);
      StepKeepsTasksRight(run[k - 1], events[k - 1], run[k]);
    }
  }

  lemma RunKeepsTasksRight(run: seq<State>, events: seq<Event>, maxSize: nat, coreSize: nat, threads: nat, k: nat)
    requires IsRun(run, events, maxSize, coreSize, threads) && k < |run|
    ensures TasksRight(run[k])
  {
    forall i | 0 <= i < |run| ensures Distinct(run[i].handles) {
      ListsOnce(run, events, maxSize, coreSize, threads, i);
    }
    RunSteps(run, events, maxSize, coreSize, threads);
    StartsRight(maxSize, coreSize, threads);
    StepsKeepTasksRight(run, events, maxSize, coreSize, k);
  }

  /** The count of tasks is that of the tasks submitted, but for those not counted yet, less the finished ones, but for
      those whose worker has not taken them off yet. */
  lemma TaskCount(run: seq<State>, events: seq<Event>, maxSize: nat, coreSize: nat, threads: nat, k: nat)
    requires IsRun(run, events, maxSize, coreSize, threads) && k < |run|
    ensures run[k].activeTasks ==
            |run[k].submitted| - |Uncounted(run[k].submitters)| - |run[k].finished| + |Unreported(run[k].workers)|
  {
    RunKeepsTasksRight(run, events, maxSize, coreSize, threads, k);
  }

  /** Tasks are taken oldest first: from the injector the oldest of all that wait there, and from a deque the oldest of
      it, whoever takes it. */
  lemma OldestFirst(run: seq<State>, events: seq<Event>, maxSize: nat, coreSize: nat, threads: nat, k: nat)
    requires IsRun(run, events, maxSize, coreSize, threads) && k < |events| && events[k].Finding?
    ensures events[k].worker < |run[k].workers| == |run[k + 1].workers|
    ensures var w := run[k + 1].workers[events[k].worker];
            && w.pc.Got?
            && OlderThanAll(w.pc.task, w.deque)
            && (events[k].findStep.StealInjector? ==> OlderThanAll(w.pc.task, run[k + 1].injector))
            && (events[k].findStep.StealWorker? ==>
                  var v := events[k].findStep.victim;
                  v < |run[k + 1].workers| && OlderThanAll(w.pc.task, run[k + 1].workers[v].deque))
  {
    RunKeepsTasksRight(run, events, maxSize, coreSize, threads, k);
    RunSteps(run, events, maxSize, coreSize, threads);
    assert StepAt(run, events, maxSize, coreSize, k);
    var s, i := run[k], events[k].worker;
    assert WorkerInOrder(s.workers[i]);
    if events[k].findStep.StealWorker? {
      assert WorkerInOrder(s.workers[events[k].findStep.victim]);
    }
  }

  /** A worker that has not left the pool is listed, from the moment on at which the thread that spawned it has listed
      it: a scan misses no such worker. */
  lemma WorkersAreListed(run: seq<State>, events: seq<Event>, maxSize: nat, coreSize: nat, threads: nat, k: nat, w: nat)
    requires IsRun(run, events, maxSize, coreSize, threads) && k < |run| && w < |run[k].workers|
    ensures HasLeft(run[k].workers[w]) || Awaiting(run[k].submitters, w) || w in run[k].handles
  {
    RunKeepsTasksRight(run, events, maxSize, coreSize, threads, k);
  }

  /** The handle a leaving worker takes is its own, if it is listed; all others stay. */
  lemma LeaverIsUnlisted(run: seq<State>, events: seq<Event>, maxSize: nat, coreSize: nat, threads: nat, k: nat, w: nat)
    requires IsRun(run, events, maxSize, coreSize, threads) && k < |events| && events[k] == Stopping(w, TakeHandle)
    ensures w !in run[k + 1].handles
    ensures forall h :: h in run[k + 1].handles <==> h in run[k].handles && h != w
  {
    ListsOnce(run, events, maxSize, coreSize, threads, k);
    RunSteps(run, events, maxSize, coreSize, threads);
    assert StepAt(run, events, maxSize, coreSize, k);
    WithoutKeepsDistinct(run[k].handles, w);
  }

  lemma UnlistedStays(s: State, e: Event, s': State, w: nat)
    requires IsStep(s, e, s') && w < |s.workers| && w !in s.handles && !Awaiting(s.submitters, w)
    ensures w < |s'.workers| && w !in s'.handles && !Awaiting(s'.submitters, w)
  {
    if e.Submitting? {
      SubmitMoves(s, e.thread, e.submitStep);
      forall t | 0 <= t < |s'.submitters| ensures s'.submitters[t] != Spawned(w) {
        assert s.submitters[t] != Spawned(w);
      }
    }
  }

  lemma {:induction false} UnlistedForEver(run: seq<State>, events: seq<Event>, maxSize: nat, coreSize: nat, w: nat,
                                           i: nat, j: nat)
    requires Steps(run, events, maxSize, coreSize) && i <= j < |run|
    requires w < |run[i].workers| && w !in run[i].handles && !Awaiting(run[i].submitters, w)
    ensures w < |run[j].workers| && w !in run[j].handles && !Awaiting(run[j].submitters, w)
  {
    if i < j {
      UnlistedForEver(run, events, maxSize, coreSize, w, i, j - 1);
      assert StepAt(run, events, maxSize, coreSize, j - 1);
      UnlistedStays(run[j - 1], events[j - 1], run[j], w);
    }
  }

  /** A worker that leaves after it has been listed is never listed again; one that leaves before the thread that
      spawned it has listed it will still be listed. */
  lemma LeftForEver(run: seq<State>, events: seq<Event>, maxSize: nat, coreSize: nat, threads: nat, k: nat, w: nat,
                    j: nat)
    requires IsRun(run, events, maxSize, coreSize, threads) && k < |events| && events[k] == Stopping(w, TakeHandle)
    requires k < j < |run| && !Awaiting(run[k].submitters, w)
    ensures w !in run[j].handles
  {
    LeaverIsUnlisted(run, events, maxSize, coreSize, threads, k, w);
    RunSteps(run, events, maxSize, coreSize, threads);
    assert StepAt(run, events, maxSize, coreSize, k);
    UnlistedForEver(run, events, maxSize, coreSize, w, k + 1, j);
  }

  /** A count of tasks that has fallen below 0, because a task was finished before it was counted, reads as one greater
      than any number of workers. */
  lemma CountReads(tasks: int)
    requires -0x1_0000_0000_0000_0000 < tasks < 0x1_0000_0000_0000_0000
    ensures Wrapped(tasks) == if tasks < 0 then 0x1_0000_0000_0000_0000 + tasks else tasks
  {
  }

  // ---------------------------------------------------------------------------------------------
  // What the end of a task leaves
  // ---------------------------------------------------------------------------------------------

  /** A worker one of whose tasks has panicked. */
  predicate Broken(w: Worker) {
    w.pc == Ended(true) || w.pc == Report(true) || (w.pc.Gone? && w.state.Panicked?)
  }

  lemma BrokenStays(s: State, e: Event, s': State, w: nat)
    requires IsStep(s, e, s') && w < |s.workers| && Broken(s.workers[w])
    ensures w < |s'.workers| && Broken(s'.workers[w])
  {
    if e.Stopping? {
      StopMoves(s, e.worker, e.stopStep);
    }
  }

  lemma {:induction false} BrokenForEver(run: seq<State>, events: seq<Event>, maxSize: nat, coreSize: nat, w: nat,
                                         i: nat, j: nat)
    requires Steps(run, events, maxSize, coreSize) && i <= j < |run|
    requires w < |run[i].workers| && Broken(run[i].workers[w])
    ensures w < |run[j].workers| && Broken(run[j].workers[w])
  {
    if i < j {
      BrokenForEver(run, events, maxSize, coreSize, w, i, j - 1);
      assert StepAt(run, events, maxSize, coreSize, j - 1);
      BrokenStays(run[j - 1], events[j - 1], run[j], w);
    }
  }

  /** A worker whose task has panicked takes no other task, ever: it can only report and go. */
  lemma PanickedIsGone(run: seq<State>, events: seq<Event>, maxSize: nat, coreSize: nat, threads: nat, w: nat, i: nat,
                       j: nat)
    requires IsRun(run, events, maxSize, coreSize, threads) && i < j < |run|
    requires events[i] == Working(w, EndTask(true))
    ensures w < |run[j].workers| && !run[j].workers[w].pc.Got? && !run[j].workers[w].pc.Run?
    ensures run[j].workers[w].pc.Gone? ==> run[j].workers[w].state.Panicked?
  {
    RunSteps(run, events, maxSize, coreSize, threads);
    assert StepAt(run, events, maxSize, coreSize, i);
    BrokenForEver(run, events, maxSize, coreSize, w, i + 1, j);
  }

  /** One that has not goes on looking for tasks once it has taken the task off the count and reported idle. */
  lemma EndedGoesOn(run: seq<State>, events: seq<Event>, maxSize: nat, coreSize: nat, threads: nat, w: nat, i: nat)
    requires IsRun(run, events, maxSize, coreSize, threads) && i < |events| && w < |run[i].workers|
    requires events[i].Working? && events[i].worker == w
    ensures w < |run[i + 1].workers|
    ensures var before, after := run[i].workers[w], run[i + 1].workers[w];
            match events[i].taskStep
            case StartTask => before.pc.Got? && after.pc == Run(before.pc.task) && after.state.Running?
            case EndTask(panics) => before.pc.Run? && after.pc == Ended(panics)
                                    && run[i + 1].finished == run[i].finished + multiset{before.pc.task}
            case UncountTask => before.pc.Ended? && after.pc == Report(before.pc.panicked)
                                && run[i + 1].activeTasks == run[i].activeTasks - 1
            case StoreState => before.pc.Report? && (before.pc.panicked <==> after.pc.Gone?)
                               && (!before.pc.panicked ==> after.pc.Looping? && after.state.Idle?)
  {
    RunSteps(run, events, maxSize, coreSize, threads);
    assert StepAt(run, events, maxSize, coreSize, i);
  }
}
