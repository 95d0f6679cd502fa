/**
  What the calls on the pool of src/sync/pool/inner_thread_pool.rs do over whole runs: what a scan counts, when a
  submission starts a worker, when a worker stops, and in which order tasks are taken.
 */
module PoolCalls {
  import opened Pool
  import opened Sequences
  import opened Wrappers

  // ---------------------------------------------------------------------------------------------
  // Runs, step by step
  // ---------------------------------------------------------------------------------------------

  ghost predicate StepAt(run: seq<State>, events: seq<Event>, maxSize: nat, coreSize: nat, k: nat)
    requires k < |events| < |run|
  {
    IsStep(run[k], events[k], run[k + 1]) && run[k].maxSize == maxSize && run[k].coreSize == coreSize
  }

  ghost predicate Steps(run: seq<State>, events: seq<Event>, maxSize: nat, coreSize: nat) {
    && |run| == |events| + 1 && run[0].workers == []
    && forall k :: 0 <= k < |events| ==> StepAt(run, events, maxSize, coreSize, k)
  }

  lemma StepKeepsSize(s: State, e: Event, s': State)
    requires IsStep(s, e, s')
    ensures s'.maxSize == s.maxSize && s'.coreSize == s.coreSize
  {
  }

  lemma {:induction false} RunKeepsSize(run: seq<State>, events: seq<Event>, maxSize: nat, coreSize: nat, threads: nat,
                                        k: nat)
    requires IsRun(run, events, maxSize, coreSize, threads) && k < |run|
    ensures run[k].maxSize == maxSize && run[k].coreSize == coreSize
  {
    if k > 0 {
      RunKeepsSize(run, events, maxSize, coreSize, threads, k - 1);
      assert IsStep(run[k - 1], events[k - 1], run[k]);
      StepKeepsSize(run[k - 1], events[k - 1], run[k]);
    }
  }

  lemma RunSteps(run: seq<State>, events: seq<Event>, maxSize: nat, coreSize: nat, threads: nat)
    requires IsRun(run, events, maxSize, coreSize, threads)
    ensures Steps(run, events, maxSize, coreSize)
  {
    forall k | 0 <= k < |events| ensures StepAt(run, events, maxSize, coreSize, k) {
      RunKeepsSize(run, events, maxSize, coreSize, threads, k);
    }
  }

  // ---------------------------------------------------------------------------------------------
  // What a scan counts
  // ---------------------------------------------------------------------------------------------

  /** Action `b` begins a scan that has not ended before state `k`. */
  predicate Scanning(events: seq<Event>, b: nat, k: nat) {
    b < k <= |events| && events[b].BeginScan? && forall m :: b < m < k ==> !events[m].EndScan?
  }

  /** How many handles the scan begun by action `b` has read before state `k`. */
  function Reads(events: seq<Event>, b: nat, k: nat): nat
    requires b < k <= |events|
  {
    if k == b + 1 then 0 else Reads(events, b, k - 1) + if events[k - 1].ScanNext? then 1 else 0
  }

  /** The worker listed at position `n` when action `b` was taken is running at state `m`. */
  predicate RunningAt(run: seq<State>, b: nat, n: nat, m: nat)
    requires b < |run| && m < |run|
  {
    n < |run[b].handles| && run[b].handles[n] < |run[m].workers| && run[m].workers[run[b].handles[n]].state.Running?
  }

  /** How many of these handles were of a worker that was running when it was read. */
  function RunningReads(run: seq<State>, events: seq<Event>, b: nat, k: nat): nat
    requires b < k <= |events| < |run|
  {
    if k == b + 1 then 0
    else
      var m := k - 1;
      RunningReads(run, events, b, m)
      + if events[m].ScanNext? && RunningAt(run, b, Reads(events, b, m), m) then 1 else 0
  }

  predicate IsRunningHandle(s: State, n: nat) {
    n < |s.handles| && s.handles[n] < |s.workers| && s.workers[s.handles[n]].state.Running?
  }

  lemma ScanGoesOn(s: State, e: Event, s': State)
    requires IsStep(s, e, s') && s.scan.Some? && !e.EndScan?
    ensures s'.handles == s.handles && s'.scan.Some?
    ensures e.ScanNext? ==>
              var sc, sc' := s.scan.value, s'.scan.value;
              && sc.next < |s.handles| && sc'.next == sc.next + 1
              && sc'.count == sc.count + if IsRunningHandle(s, sc.next) then 1 else 0
    ensures !e.ScanNext? ==> s'.scan == s.scan
  {
  }

  lemma ScanBegins(s: State, s': State)
    requires IsStep(s, BeginScan, s')
    ensures s'.handles == s.handles && s'.scan.Some? && s'.scan.value.next == 0 && s'.scan.value.count == 0
  {
  }

  /** What the scan has recorded at state `k` is what its reads have found. */
  ghost predicate RecordsReads(run: seq<State>, events: seq<Event>, b: nat, k: nat)
    requires b < k <= |events| < |run|
  {
    && run[k].scan.Some? && run[k].handles == run[b].handles
    && run[k].scan.value.next == Reads(events, b, k)
    && run[k].scan.value.count == RunningReads(run, events, b, k)
  }

  lemma ReadOne(run: seq<State>, events: seq<Event>, b: nat, m: nat)
    requires b < m < |events| < |run| && RecordsReads(run, events, b, m) && !events[m].EndScan?
    requires IsStep(run[m], events[m], run[m + 1])
    ensures RecordsReads(run, events, b, m + 1)
  {
    ScanGoesOn(run[m], events[m], run[m + 1]);
    assert IsRunningHandle(run[m], Reads(events, b, m)) <==> RunningAt(run, b, Reads(events, b, m), m);
  }

  lemma {:induction false} ScanProgress(run: seq<State>, events: seq<Event>, maxSize: nat, coreSize: nat, threads: nat,
                                        b: nat, k: nat)
    requires IsRun(run, events, maxSize, coreSize, threads) && Scanning(events, b, k)
    ensures RecordsReads(run, events, b, k)
  {
    if k == b + 1 {
      assert IsStep(run[b], events[b], run[k]);
      ScanBegins(run[b], run[k]);
    } else {
      ScanProgress(run, events, maxSize, coreSize, threads, b, k - 1);
      assert IsStep(run[k - 1], events[k - 1], run[k]);
      ReadOne(run, events, b, k - 1);
    }
  }

  lemma ScanFinishes(s: State, s': State)
    requires IsStep(s, EndScan, s')
    ensures s.scan.Some? && s.scan.value.next >= |s.handles| && s'.results == s.results + [s.scan.value.count]
  {
  }

  lemma {:induction false} ReadsWithin(run: seq<State>, events: seq<Event>, maxSize: nat, coreSize: nat, threads: nat,
                                       b: nat, k: nat)
    requires IsRun(run, events, maxSize, coreSize, threads) && Scanning(events, b, k)
    ensures Reads(events, b, k) <= |run[b].handles|
  {
    if k > b + 1 {
      ReadsWithin(run, events, maxSize, coreSize, threads, b, k - 1);
      ScanProgress(run, events, maxSize, coreSize, threads, b, k - 1);
      assert IsStep(run[k - 1], events[k - 1], run[k]);
      ScanGoesOn(run[k - 1], events[k - 1], run[k]);
    }
  }

  /** A scan reads every handle that was listed when it began, once, and its result is the number of those whose
      worker was running when its handle was read. */
  lemma ScanResult(run: seq<State>, events: seq<Event>, maxSize: nat, coreSize: nat, threads: nat, b: nat, e: nat)
    requires IsRun(run, events, maxSize, coreSize, threads) && Scanning(events, b, e)
    requires e < |events| && events[e].EndScan?
    ensures Reads(events, b, e) == |run[b].handles|
    ensures run[e + 1].results == run[e].results + [RunningReads(run, events, b, e)]
  {
    ScanProgress(run, events, maxSize, coreSize, threads, b, e);
    ReadsWithin(run, events, maxSize, coreSize, threads, b, e);
    assert IsStep(run[e], events[e], run[e + 1]);
    ScanFinishes(run[e], run[e + 1]);
  }

  ghost predicate AlwaysRunning(run: seq<State>, b: nat, n: nat, k: nat)
    requires b <= k < |run|
  {
    forall m :: b <= m <= k ==> RunningAt(run, b, n, m)
  }

  ghost predicate EverRunning(run: seq<State>, b: nat, n: nat, k: nat)
    requires b <= k < |run|
  {
    exists m :: b <= m <= k && RunningAt(run, b, n, m)
  }

  /** The positions, of the first `count`, of workers that were running all the time. */
  ghost function Steady(run: seq<State>, b: nat, k: nat, count: nat): set<nat>
    requires b <= k < |run|
  {
    set n: nat | n < count && AlwaysRunning(run, b, n, k)
  }

  /** The positions, of the first `count`, of workers that were running at some time. */
  ghost function Met(run: seq<State>, b: nat, k: nat, count: nat): set<nat>
    requires b <= k < |run|
  {
    set n: nat | n < count && EverRunning(run, b, n, k)
  }

  lemma SubsetSize(a: set<nat>, b: set<nat>)
    requires a <= b
    ensures |a| <= |b|
  {
    assert b == a + (b - a);
  }

  lemma AtMostSum(a: set<nat>, b: set<nat>, c: set<nat>)
    requires a <= b + c
    ensures |a| <= |b| + |c|
  {
    SubsetSize(a, b + c);
    assert b + c == b + (c - b);
    SubsetSize(c - b, c);
  }

  lemma AtLeastSum(a: set<nat>, b: set<nat>, c: set<nat>)
    requires a + b <= c && a !! b
    ensures |a| + |b| <= |c|
  {
    SubsetSize(a + b, c);
  }

  /** The position read by action `m`, if its worker is running. */
  function Counted(run: seq<State>, events: seq<Event>, b: nat, m: nat): set<nat>
    requires b < m < |events| < |run|
  {
    var n := Reads(events, b, m);
    if events[m].ScanNext? && RunningAt(run, b, n, m) then {n} else {}
  }

  lemma SteadyAfter(run: seq<State>, events: seq<Event>, b: nat, m: nat)
    requires b < m < |events| < |run|
    ensures Steady(run, b, m + 1, Reads(events, b, m + 1)) <=
            Steady(run, b, m, Reads(events, b, m)) + Counted(run, events, b, m)
  {
    forall n | n in Steady(run, b, m + 1, Reads(events, b, m + 1))
      ensures n in Steady(run, b, m, Reads(events, b, m)) + Counted(run, events, b, m)
    {
      assert RunningAt(run, b, n, m);
      if n < Reads(events, b, m) {
        assert AlwaysRunning(run, b, n, m);
      }
    }
  }

  lemma MetAfter(run: seq<State>, events: seq<Event>, b: nat, m: nat)
    requires b < m < |events| < |run|
    ensures Met(run, b, m, Reads(events, b, m)) + Counted(run, events, b, m) <=
            Met(run, b, m + 1, Reads(events, b, m + 1))
    ensures Met(run, b, m, Reads(events, b, m)) !! Counted(run, events, b, m)
  {
    forall n | n in Met(run, b, m, Reads(events, b, m)) ensures n in Met(run, b, m + 1, Reads(events, b, m + 1)) {
      var k :| b <= k <= m && RunningAt(run, b, n, k);
      assert EverRunning(run, b, n, m + 1);
    }
    forall n | n in Counted(run, events, b, m) ensures n in Met(run, b, m + 1, Reads(events, b, m + 1)) {
      assert EverRunning(run, b, n, m + 1);
    }
  }

  lemma {:induction false} ReadsBetween(run: seq<State>, events: seq<Event>, b: nat, k: nat)
    requires |run| == |events| + 1 && b < k <= |events|
    ensures |Steady(run, b, k, Reads(events, b, k))| <= RunningReads(run, events, b, k)
    ensures RunningReads(run, events, b, k) <= |Met(run, b, k, Reads(events, b, k))|
  {
    if k == b + 1 {
      assert Steady(run, b, k, 0) == {};
    } else {
      var m := k - 1;
      ReadsBetween(run, events, b, m);
      SteadyAfter(run, events, b, m);
      MetAfter(run, events, b, m);
      var counted := Counted(run, events, b, m);
      AtMostSum(Steady(run, b, k, Reads(events, b, k)), Steady(run, b, m, Reads(events, b, m)), counted);
      AtLeastSum(Met(run, b, m, Reads(events, b, m)), counted, Met(run, b, k, Reads(events, b, k)));
    }
  }

  /** The result of a scan lies between the number of listed workers that were running all the time and of those that
      ever were. */
  lemma ScanBetween(run: seq<State>, events: seq<Event>, maxSize: nat, coreSize: nat, threads: nat, b: nat, e: nat)
    requires IsRun(run, events, maxSize, coreSize, threads) && Scanning(events, b, e)
    requires e < |events| && events[e].EndScan?
    ensures |run[e + 1].results| == |run[e].results| + 1
    ensures var result := run[e + 1].results[|run[e].results|];
            var listed := |run[b].handles|;
            |Steady(run, b, e, listed)| <= result <= |Met(run, b, e, listed)| && result <= maxSize
  {
    ScanResult(run, events, maxSize, coreSize, threads, b, e);
    ReadsBetween(run, events, b, e);
    RunningNeverExceedsMax(run, events, maxSize, coreSize, threads, e + 1, |run[e].results|);
  }

  // ---------------------------------------------------------------------------------------------
  // When a submission starts a worker
  // ---------------------------------------------------------------------------------------------

  /** The actions of one submission: when it loaded the counts, reserved a place, spawned, and settled it. */
  datatype Trail = Trail(loadTasks: nat, loadWorkers: nat, reserve: nat, spawn: nat, settle: nat)

  /** Action `i` is a push by thread `t`, which pushes nothing else before state `j`. */
  predicate Submission(events: seq<Event>, t: nat, i: nat, j: nat) {
    i < j <= |events| && Pushes(events[i], t) && forall k :: i < k < j ==> !Pushes(events[k], t)
  }

  predicate Pushes(e: Event, t: nat) {
    e.Submitting? && e.thread == t && e.submitStep.Push?
  }

  predicate Did(events: seq<Event>, t: nat, k: nat, j: nat, step: SubmitStep)
    requires j <= |events|
  {
    k < j && events[k] == Submitting(t, step)
  }

  /** The counts the submission decides by, as they were when it loaded them. */
  ghost predicate LoadedBoth(run: seq<State>, events: seq<Event>, t: nat, i: nat, j: nat, trail: Trail, tasks: nat,
                             workers: int)
    requires j <= |events| < |run|
  {
    && i < trail.loadTasks < trail.loadWorkers
    && Did(events, t, trail.loadTasks, j, LoadTasks) && tasks == Wrapped(run[trail.loadTasks].activeTasks)
    && Did(events, t, trail.loadWorkers, j, LoadWorkers) && workers == run[trail.loadWorkers].activeWorkers
  }

  /** A place has been reserved: the counts called for it, and the number of workers was still the one loaded. */
  ghost predicate ReservedPlace(run: seq<State>, events: seq<Event>, maxSize: nat, t: nat, i: nat, j: nat, trail: Trail)
    requires j <= |events| < |run|
  {
    && trail.loadTasks < trail.loadWorkers < trail.reserve && Did(events, t, trail.reserve, j, Decide)
    && LoadedBoth(run, events, t, i, j, trail, Wrapped(run[trail.loadTasks].activeTasks),
                  run[trail.reserve].activeWorkers)
    && Short(maxSize, Wrapped(run[trail.loadTasks].activeTasks), run[trail.reserve].activeWorkers)
    && run[trail.reserve + 1].activeWorkers == run[trail.reserve].activeWorkers + 1
  }

  /** There are more tasks than workers, and fewer workers than there may be. */
  predicate Short(maxSize: nat, tasks: nat, workers: int) {
    workers < maxSize && tasks > workers
  }

  ghost predicate SpawnedOne(run: seq<State>, events: seq<Event>, t: nat, j: nat, trail: Trail, id: nat)
    requires j <= |events| < |run|
  {
    && trail.reserve < trail.spawn && Did(events, t, trail.spawn, j, Spawn)
    && id == |run[trail.spawn].workers|
    && run[trail.spawn + 1].workers == run[trail.spawn].workers + [Worker(Idle, Looping, [])]
  }

  /** How far a submission has come. */
  ghost predicate SubmitProgress(run: seq<State>, events: seq<Event>, maxSize: nat, t: nat, i: nat, j: nat,
                                 trail: Trail)
    requires j <= |events| < |run|
  {
    t < |run[j].submitters| &&
    match run[j].submitters[t]
    case Pushed => true
    case Counted => exists k :: i < k < j && events[k] == Submitting(t, CountTask)
    case LoadedTasks(tasks) =>
      i < trail.loadTasks && Did(events, t, trail.loadTasks, j, LoadTasks)
      && tasks == Wrapped(run[trail.loadTasks].activeTasks)
    case Deciding(tasks, workers) => LoadedBoth(run, events, t, i, j, trail, tasks, workers)
    case Reserved => ReservedPlace(run, events, maxSize, t, i, j, trail)
    case Spawned(id) =>
      ReservedPlace(run, events, maxSize, t, i, j, trail) && SpawnedOne(run, events, t, j, trail, id)
    case Outside => SubmitDone(run, events, maxSize, t, i, j, trail)
  }

  /** A submission that has returned started a worker, and listed it, or failed to, exactly if the counts it had loaded
      called for one. */
  ghost predicate SubmitDone(run: seq<State>, events: seq<Event>, maxSize: nat, t: nat, i: nat, j: nat, trail: Trail)
    requires j <= |events| < |run|
  {
    && trail.loadTasks < |run| && trail.loadWorkers < |run|
    && LoadedBoth(run, events, t, i, j, trail, Wrapped(run[trail.loadTasks].activeTasks),
                  run[trail.loadWorkers].activeWorkers)
    && (Short(maxSize, Wrapped(run[trail.loadTasks].activeTasks), run[trail.loadWorkers].activeWorkers) ==>
          && ReservedPlace(run, events, maxSize, t, i, j, trail)
          && (Did(events, t, trail.settle, j, SpawnFails)
              || (Did(events, t, trail.settle, j, PushHandle) && trail.spawn < trail.settle
                  && SpawnedOne(run, events, t, j, trail, |run[trail.spawn].workers|)
                  && run[trail.settle + 1].handles == run[trail.settle].handles + [|run[trail.spawn].workers|])))
  }

  /** What a submitting thread's step does to it, and what it needs of the pool. */
  ghost predicate SubmitterStep(s: State, s': State, t: nat, step: SubmitStep)
    requires t < |s.submitters| && t < |s'.submitters|
  {
    var pc, pc' := s.submitters[t], s'.submitters[t];
    match step
    case Push => pc'.Pushed?
    case CountTask => pc.Pushed? && pc'.Counted?
    case LoadTasks => pc.Counted? && pc' == LoadedTasks(Wrapped(s.activeTasks))
    case LoadWorkers => pc.LoadedTasks? && pc' == Deciding(pc.tasks, s.activeWorkers)
    case Decide => pc.Deciding? && Decides(s, s', pc, pc')
    case Spawn =>
      pc.Reserved? && pc' == Spawned(|s.workers|) && s'.workers == s.workers + [Worker(Idle, Looping, [])]
    case SpawnFails => pc.Reserved? && pc'.Outside?
    case PushHandle => pc.Spawned? && pc'.Outside? && s'.handles == s.handles + [pc.id]
  }

  /** A thread that finds the pool short of workers reserves a place, or retries if the count has changed. */
  ghost predicate Decides(s: State, s': State, pc: SubmitPc, pc': SubmitPc)
    requires pc.Deciding?
  {
    if !Short(s.maxSize, pc.tasks, pc.workers) then pc'.Outside? && s'.activeWorkers == s.activeWorkers
    else if s.activeWorkers == pc.workers then pc'.Reserved? && s'.activeWorkers == s.activeWorkers + 1
    else pc' == pc && s'.activeWorkers == s.activeWorkers
  }

  lemma SubmitterMoves(s: State, e: Event, s': State, t: nat)
    requires IsStep(s, e, s') && t < |s.submitters|
    ensures |s'.submitters| == |s.submitters|
    ensures e.Submitting? && e.thread == t ==> SubmitterStep(s, s', t, e.submitStep)
    ensures !(e.Submitting? && e.thread == t) ==> s'.submitters[t] == s.submitters[t]
  {
    if e.Submitting? {
      SubmitMoves(s, e.thread, e.submitStep);
    }
  }

  lemma SubmitMoves(s: State, u: nat, step: SubmitStep)
    requires SubmitEnabled(s, u, step)
    ensures var s' := DoSubmit(s, u, step);
            && |s'.submitters| == |s.submitters| && SubmitterStep(s, s', u, step)
            && forall t :: 0 <= t < |s.submitters| && t != u ==> s'.submitters[t] == s.submitters[t]
  {
  }

  function NextTrail(trail: Trail, step: SubmitStep, k: nat): Trail {
    match step
    case LoadTasks => trail.(loadTasks := k)
    case LoadWorkers => trail.(loadWorkers := k)
    case Decide => trail.(reserve := k)
    case Spawn => trail.(spawn := k)
    case SpawnFails => trail.(settle := k)
    case PushHandle => trail.(settle := k)
    case _ => trail
  }

  lemma TrailStays(run: seq<State>, events: seq<Event>, maxSize: nat, t: nat, i: nat, k: nat, trail: Trail)
    requires k < |events| < |run| && SubmitProgress(run, events, maxSize, t, i, k, trail)
    requires |run[k + 1].submitters| == |run[k].submitters| && run[k + 1].submitters[t] == run[k].submitters[t]
    ensures SubmitProgress(run, events, maxSize, t, i, k + 1, trail)
  {
  }

  lemma TrailGrows(run: seq<State>, events: seq<Event>, maxSize: nat, t: nat, i: nat, k: nat, trail: Trail,
                   step: SubmitStep)
    requires i < k < |events| < |run| && SubmitProgress(run, events, maxSize, t, i, k, trail)
    requires events[k] == Submitting(t, step) && !step.Push? && run[k].maxSize == maxSize
    requires |run[k + 1].submitters| == |run[k].submitters| && SubmitterStep(run[k], run[k + 1], t, step)
    requires step.Decide? ==> !run[k + 1].submitters[t].Deciding?
    ensures SubmitProgress(run, events, maxSize, t, i, k + 1, NextTrail(trail, step, k))
  {
  }

  lemma OneSubmitStep(run: seq<State>, events: seq<Event>, maxSize: nat, t: nat, i: nat, k: nat, trail: Trail)
    returns (longer: Trail)
    requires i < k < |events| < |run| && SubmitProgress(run, events, maxSize, t, i, k, trail)
    requires IsStep(run[k], events[k], run[k + 1]) && run[k].maxSize == maxSize && !Pushes(events[k], t)
    ensures SubmitProgress(run, events, maxSize, t, i, k + 1, longer)
  {
    SubmitterMoves(run[k], events[k], run[k + 1], t);
    if run[k + 1].submitters[t] == run[k].submitters[t] {
      TrailStays(run, events, maxSize, t, i, k, trail);
      longer := trail;
    } else {
      TrailGrows(run, events, maxSize, t, i, k, trail, events[k].submitStep);
      longer := NextTrail(trail, events[k].submitStep, k);
    }
  }

  lemma SubmissionStarts(run: seq<State>, events: seq<Event>, maxSize: nat, t: nat, i: nat, trail: Trail)
    requires i < |events| < |run| && Pushes(events[i], t) && IsStep(run[i], events[i], run[i + 1])
    ensures SubmitProgress(run, events, maxSize, t, i, i + 1, trail)
  {
  }

  lemma {:induction false} SubmissionProgress(run: seq<State>, events: seq<Event>, maxSize: nat, coreSize: nat, t: nat,
                                              i: nat, j: nat) returns (trail: Trail)
    requires Steps(run, events, maxSize, coreSize) && Submission(events, t, i, j)
    ensures SubmitProgress(run, events, maxSize, t, i, j, trail)
  {
    var k := j - 1;
    assert StepAt(run, events, maxSize, coreSize, k);
    if k == i {
      trail := Trail(0, 0, 0, 0, 0);
      SubmissionStarts(run, events, maxSize, t, i, trail);
    } else {
      assert !Pushes(events[k], t);
      var shorter := SubmissionProgress(run, events, maxSize, coreSize, t, i, k);
      trail := OneSubmitStep(run, events, maxSize, t, i, k, shorter);
    }
  }

  /** A submission that has returned has loaded both counts.  It started a worker and listed it, or failed to start
      one, if they said that there were more tasks than workers and fewer workers than there may be, and the place it
      reserved is one it found free. */
  lemma SubmissionOutcome(run: seq<State>, events: seq<Event>, maxSize: nat, coreSize: nat, threads: nat, t: nat,
                          i: nat, j: nat) returns (trail: Trail)
    requires IsRun(run, events, maxSize, coreSize, threads) && Submission(events, t, i, j)
    requires t < |run[j].submitters| && run[j].submitters[t].Outside?
    ensures SubmitDone(run, events, maxSize, t, i, j, trail)
  {
    RunSteps(run, events, maxSize, coreSize, threads);
    trail := SubmissionProgress(run, events, maxSize, coreSize, t, i, j);
  }

  /** A place is reserved only by a submission that found the pool short of workers. */
  lemma ReservedWhenShort(run: seq<State>, events: seq<Event>, maxSize: nat, coreSize: nat, threads: nat, t: nat,
                          i: nat, j: nat) returns (trail: Trail)
    requires IsRun(run, events, maxSize, coreSize, threads) && Submission(events, t, i, j)
    requires t < |run[j].submitters| && (run[j].submitters[t].Reserved? || run[j].submitters[t].Spawned?)
    ensures ReservedPlace(run, events, maxSize, t, i, j, trail)
  {
    RunSteps(run, events, maxSize, coreSize, threads);
    trail := SubmissionProgress(run, events, maxSize, coreSize, t, i, j);
  }

  // ---------------------------------------------------------------------------------------------
  // When a worker stops
  // ---------------------------------------------------------------------------------------------

  /** The actions of a worker that considers stopping: its loads of the worker count, first and again, of the task
      count, and its exchange. */
  datatype StopTrail = StopTrail(first: nat, workers: nat, tasks: nat, exchange: nat)

  predicate Stepped(events: seq<Event>, w: nat, k: nat, j: nat, step: StopStep)
    requires j <= |events|
  {
    k < j && events[k] == Stopping(w, step)
  }

  ghost predicate LoadedFirst(run: seq<State>, events: seq<Event>, w: nat, j: nat, trail: StopTrail, seen: int)
    requires j <= |events| < |run|
  {
    Stepped(events, w, trail.first, j, LoadCounts) && seen == run[trail.first].activeWorkers
  }

  ghost predicate LoadedAgain(run: seq<State>, events: seq<Event>, w: nat, j: nat, trail: StopTrail, workers: int)
    requires j <= |events| < |run|
  {
    && trail.first < trail.workers && Stepped(events, w, trail.workers, j, LoadCounts)
    && workers == run[trail.workers].activeWorkers
  }

  /** The worker found more workers than tasks, and more than the core size. */
  ghost predicate FoundExcess(run: seq<State>, events: seq<Event>, coreSize: nat, w: nat, j: nat, trail: StopTrail)
    requires j <= |events| < |run|
  {
    && trail.workers < trail.tasks && Stepped(events, w, trail.tasks, j, LoadCounts)
    && LoadedAgain(run, events, w, j, trail, run[trail.workers].activeWorkers)
    && run[trail.workers].activeWorkers > Wrapped(run[trail.tasks].activeTasks)
    && run[trail.workers].activeWorkers > coreSize
  }

  /** It has taken itself off the count, which was still the one it had loaded first. */
  ghost predicate TookItselfOff(run: seq<State>, events: seq<Event>, w: nat, j: nat, trail: StopTrail)
    requires j <= |events| < |run|
  {
    && trail.tasks < trail.exchange && Stepped(events, w, trail.exchange, j, Cas)
    && LoadedFirst(run, events, w, j, trail, run[trail.exchange].activeWorkers)
    && run[trail.exchange + 1].activeWorkers == run[trail.exchange].activeWorkers - 1
  }

  ghost predicate StopProgress(run: seq<State>, events: seq<Event>, coreSize: nat, w: nat, j: nat, trail: StopTrail)
    requires j <= |events| < |run| && w < |run[j].workers|
  {
    var worker := run[j].workers[w];
    match worker.pc
    case CheckWorkers(seen) => LoadedFirst(run, events, w, j, trail, seen)
    case CheckTasks(seen, workers) =>
      LoadedFirst(run, events, w, j, trail, seen) && LoadedAgain(run, events, w, j, trail, workers)
    case StopCas(seen) =>
      LoadedFirst(run, events, w, j, trail, seen) && FoundExcess(run, events, coreSize, w, j, trail)
    case RemoveHandle => Left(run, events, coreSize, w, j, trail)
    case Leaving => Left(run, events, coreSize, w, j, trail)
    case Gone => worker.state.Finished? ==> Left(run, events, coreSize, w, j, trail)
    case _ => true
  }

  ghost predicate Left(run: seq<State>, events: seq<Event>, coreSize: nat, w: nat, j: nat, trail: StopTrail)
    requires j <= |events| < |run|
  {
    FoundExcess(run, events, coreSize, w, j, trail) && TookItselfOff(run, events, w, j, trail)
  }

  /** What a worker's step towards stopping does to it. */
  ghost predicate StopperStep(s: State, s': State, w: nat, step: StopStep)
    requires w < |s.workers| && w < |s'.workers|
  {
    var pc, pc' := s.workers[w].pc, s'.workers[w].pc;
    match step
    case TimeOut => pc'.MaybeStop?
    case LoadCounts =>
      (match pc
       case MaybeStop => pc' == CheckWorkers(s.activeWorkers)
       case CheckWorkers(seen) => pc' == CheckTasks(seen, s.activeWorkers)
       case CheckTasks(seen, workers) =>
         pc' == if workers > Wrapped(s.activeTasks) && workers > s.coreSize then StopCas(seen) else Looping
       case _ => false)
    case Cas =>
      && pc.StopCas?
      && (if s.activeWorkers == pc.seen then pc'.RemoveHandle? && s'.activeWorkers == pc.seen - 1
          else pc'.MaybeStop? && s'.activeWorkers == s.activeWorkers)
    case TakeHandle => pc.RemoveHandle? && pc'.Leaving?
    case Leave => pc.Leaving? && pc'.Gone? && s'.workers[w].state.Finished?
  }

  lemma StopMoves(s: State, w: nat, step: StopStep)
    requires StopEnabled(s, w, step)
    ensures var s' := DoStop(s, w, step);
            && |s'.workers| == |s.workers| && StopperStep(s, s', w, step)
            && forall v :: 0 <= v < |s.workers| && v != w ==> s'.workers[v] == s.workers[v]
  {
  }

  /** Every other step leaves a worker's place alone or takes it out of the loop's idle part only to run a task. */
  ghost predicate NotStopping(w: Worker, w': Worker) {
    || (w'.pc == w.pc && w'.state == w.state)
    || w'.pc.Got? || w'.pc.Run? || w'.pc.Ended? || w'.pc.Report? || w'.pc.Looping?
    || (w'.pc.Gone? && w'.state.Panicked?)
  }

  lemma OthersNotStopping(s: State, e: Event, s': State, w: nat)
    requires IsStep(s, e, s') && w < |s.workers| && !(e.Stopping? && e.worker == w)
    ensures w < |s'.workers| && NotStopping(s.workers[w], s'.workers[w])
  {
    if e.Stopping? {
      StopMoves(s, e.worker, e.stopStep);
    }
  }

  lemma SpawnedLooks(s: State, e: Event, s': State, w: nat)
    requires IsStep(s, e, s') && |s.workers| <= w < |s'.workers|
    ensures s'.workers[w].pc.Looping?
  {
    if e.Stopping? {
      StopMoves(s, e.worker, e.stopStep);
    }
  }

  lemma StopTrailStays(run: seq<State>, events: seq<Event>, coreSize: nat, w: nat, k: nat, trail: StopTrail)
    requires k < |events| < |run| && w < |run[k].workers| && w < |run[k + 1].workers|
    requires StopProgress(run, events, coreSize, w, k, trail) && NotStopping(run[k].workers[w], run[k + 1].workers[w])
    ensures StopProgress(run, events, coreSize, w, k + 1, trail)
  {
  }

  function NextStopTrail(trail: StopTrail, pc: WorkerPc, step: StopStep, k: nat): StopTrail {
    if step.Cas? then trail.(exchange := k)
    else if !step.LoadCounts? then trail
    else if pc.MaybeStop? then trail.(first := k)
    else if pc.CheckWorkers? then trail.(workers := k)
    else trail.(tasks := k)
  }

  lemma StopTrailGrows(run: seq<State>, events: seq<Event>, coreSize: nat, w: nat, k: nat, trail: StopTrail,
                       step: StopStep)
    requires k < |events| < |run| && w < |run[k].workers| && w < |run[k + 1].workers|
    requires StopProgress(run, events, coreSize, w, k, trail) && run[k].coreSize == coreSize
    requires events[k] == Stopping(w, step) && StopperStep(run[k], run[k + 1], w, step)
    ensures StopProgress(run, events, coreSize, w, k + 1, NextStopTrail(trail, run[k].workers[w].pc, step, k))
  {
  }

  lemma OneStopStep(run: seq<State>, events: seq<Event>, coreSize: nat, w: nat, k: nat, trail: StopTrail)
    returns (longer: StopTrail)
    requires k < |events| < |run| && w < |run[k].workers|
    requires StopProgress(run, events, coreSize, w, k, trail) && run[k].coreSize == coreSize
    requires IsStep(run[k], events[k], run[k + 1])
    ensures w < |run[k + 1].workers| && StopProgress(run, events, coreSize, w, k + 1, longer)
  {
    var e := events[k];
    if e.Stopping? && e.worker == w {
      StopMoves(run[k], w, e.stopStep);
      StopTrailGrows(run, events, coreSize, w, k, trail, e.stopStep);
      longer := NextStopTrail(trail, run[k].workers[w].pc, e.stopStep, k);
    } else {
      OthersNotStopping(run[k], e, run[k + 1], w);
      StopTrailStays(run, events, coreSize, w, k, trail);
      longer := trail;
    }
  }

  lemma {:induction false} StoppingProgress(run: seq<State>, events: seq<Event>, maxSize: nat, coreSize: nat, w: nat,
                                            j: nat) returns (trail: StopTrail)
    requires Steps(run, events, maxSize, coreSize) && j < |run| && w < |run[j].workers|
    ensures StopProgress(run, events, coreSize, w, j, trail)
  {
    trail := StopTrail(0, 0, 0, 0);
    if j > 0 {
      var k := j - 1;
      assert StepAt(run, events, maxSize, coreSize, k);
      if w < |run[k].workers| {
        var shorter := StoppingProgress(run, events, maxSize, coreSize, w, k);
        trail := OneStopStep(run, events, coreSize, w, k, shorter);
      } else {
        SpawnedLooks(run[k], events[k], run[j], w);
      }
    }
  }

  /** A worker that has stopped found, in two loads, more workers than tasks and more than the core size, and took
      itself off a count that was the one it had loaded before. */
  lemma StoppedOnExcess(run: seq<State>, events: seq<Event>, maxSize: nat, coreSize: nat, threads: nat, w: nat, j: nat)
    returns (trail: StopTrail)
    requires IsRun(run, events, maxSize, coreSize, threads) && j < |run| && w < |run[j].workers|
    requires run[j].workers[w].state.Finished?
    ensures Left(run, events, coreSize, w, j, trail)
  {
    RunKeepsInv(run, events, maxSize, coreSize, threads, j);
    assert WorkerRight(run[j].workers[w]);
    RunSteps(run, events, maxSize, coreSize, threads);
    trail := StoppingProgress(run, events, maxSize, coreSize, w, j);
  }

  /** A worker that loads the task count stops exactly if the workers it loaded exceed it and the core size, provided
      the count of workers is then still the one it loaded first. */
  lemma StopsExactly(run: seq<State>, events: seq<Event>, maxSize: nat, coreSize: nat, threads: nat, w: nat, j: nat)
    requires IsRun(run, events, maxSize, coreSize, threads) && j < |events| && w < |run[j].workers|
    requires events[j].Stopping? && events[j].worker == w
    ensures w < |run[j + 1].workers|
    ensures var pc, pc' := run[j].workers[w].pc, run[j + 1].workers[w].pc;
            && (events[j].stopStep.LoadCounts? && pc.CheckTasks? ==>
                  (pc'.StopCas? <==> pc.workers > Wrapped(run[j].activeTasks) && pc.workers > coreSize)
                  && (!pc'.StopCas? ==> pc'.Looping?))
            && (events[j].stopStep.Cas? ==> (pc'.RemoveHandle? <==> run[j].activeWorkers == pc.seen)
                                            && (!pc'.RemoveHandle? ==> pc'.MaybeStop?))
  {
    assert IsStep(run[j], events[j], run[j + 1]);
    RunKeepsSize(run, events, maxSize, coreSize, threads, j);
    StopMoves(run[j], w, events[j].stopStep);
  }
}
