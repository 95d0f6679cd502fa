/**
  The execution loop of src/backend/flow_backend.rs, driving either ordering, the heap of ready jobs, the
  promises of submitted jobs and a worker pool that may do anything a pool can do.
 */
module Execute {
  import opened Graphs
  import opened Promises
  import opened Jobs
  import opened Engine
  import opened Liveness
  import opened Working
  import opened Orderings
  import opened Dispatch
  import opened Scheduling
  import opened Wrappers

  // ---------------------------------------------------------------------------------------------
  // Either ordering
  // ---------------------------------------------------------------------------------------------

  datatype Ordering = UseStepped(stepped: SteppedOrdering) | UseTraversal(traversal: GraphTraversalOrdering) {

    ghost function Object(): object {
      match this
      case UseStepped(s) => s
      case UseTraversal(t) => t
    }

    ghost predicate Valid()
      reads Object()
    {
      match this
      case UseStepped(s) => s.Valid()
      case UseTraversal(t) => t.Valid()
    }

    ghost function Spec(): ReadySet
      reads Object()
    {
      match this
      case UseStepped(s) => s.spec
      case UseTraversal(t) => t.spec
    }

    /** The most jobs polled and not offered back at once; 0 if there is no limit. */
    ghost function Width(): nat
      reads Object()
    {
      match this
      case UseStepped(s) => s.width
      case UseTraversal(t) => 0
    }

    method Poll() returns (out: seq<JobId>)
      requires Valid()
      modifies Object()
      ensures Valid() && Width() == old(Width())
      ensures old(Spec()).MayPoll(out) && Spec() == old(Spec()).AfterPoll(out)
    {
      match this
      case UseStepped(s) => out := s.Poll();
      case UseTraversal(t) => out := t.Poll();
    }

    method Offer(task: JobId) returns (r: OfferResult)
      requires Valid() && task in Spec().inFlight
      modifies Object()
      ensures r == Offered && Valid() && Width() == old(Width())
      ensures Spec() == old(Spec()).AfterOffer(task)
    {
      match this
      case UseStepped(s) =>
        s.Offer(task);
        r := Offered;
      case UseTraversal(t) =>
        r := t.Offer(task);
    }

    method Empty() returns (empty: bool)
      requires Valid()
      ensures empty <==> Spec().Remaining() == {}
    {
      match this
      case UseStepped(s) => empty := s.Empty();
      case UseTraversal(t) => empty := t.Empty();
    }

    lemma SpecIsLegal()
      requires Valid()
      ensures Spec().Legal()
    {
    }

    /** The stepped ordering never has more than its width of jobs out. */
    lemma InFlightBound()
      requires Valid() && Width() > 0
      ensures |Spec().inFlight| <= Width()
    {
      match this
      case UseStepped(s) => SteppedInFlightBound(s.order, s.width, s.spec);
      case UseTraversal(t) =>
    }
  }

  // ---------------------------------------------------------------------------------------------
  // The loop's state
  // ---------------------------------------------------------------------------------------------

  datatype Result =
    | Success
    | TaskError(job: JobId, error: JobError)
    | Cyclic
    | Panicked(job: JobId)
    | StillRunning

  /** What is known of an execution beside its result: the ranks of the jobs, the graph of their dependencies, and
      the polls that did not end it. */
  datatype History = History(rank: map<JobId, nat>, graph: FlowGraph, trace: seq<Look>)

  /** A result that ends an execution is right: after success every job has been collected with the value it
      evaluates to, and an error or a panic is what evaluating its job gives. */
  ghost predicate RightResult(p: Plan, rank: map<JobId, nat>, s: Sys, r: Result) {
    match r
    case Success => AllAsEvaluated(p, rank, s) && Inv(p, rank, s)
    case TaskError(job, error) => EndsAt(p, rank, s.progress, job, Failed(error))
    case Panicked(job) => EndsAt(p, rank, s.progress, job, Crashed)
    case StillRunning => false
    case Cyclic => false
  }

  /** The execution has made the polls of its history.  It is still running only if these have used all the ticks
      and left it unfinished; any other result is right. */
  ghost predicate RightEnd(p: Plan, maxSize: nat, ticks: seq<Tick>, h: History, s: Sys, r: Result) {
    && IsTrace(p, h.graph, maxSize, ticks, h.trace)
    && (r.Success? || r.StillRunning? ==> s == SysAfter(p, h.trace))
    && if r.StillRunning? then Unfinished(p, ticks, h.trace) else RightResult(p, h.rank, s, r)
  }

  lemma SuccessIsRight(p: Plan, maxSize: nat, ticks: seq<Tick>, h: History, l: Loop)
    requires InRun(Between, p, h.graph, maxSize, ticks, h.trace, l)
    requires Coherent(p, h.rank, h.graph, l, []) && l.spec.Remaining() == {}
    ensures RightEnd(p, maxSize, ticks, h, l.sys, Success)
  {
    RunIsTrace(Between, p, h.graph, maxSize, ticks, h.trace, l);
    EmptyMeansCollected(p, h.rank, h.graph, l);
  }

  lemma ErrorIsRight(stage: Stage, p: Plan, maxSize: nat, ticks: seq<Tick>, h: History, l: Loop, s: Sys, r: Result)
    requires InRun(stage, p, h.graph, maxSize, ticks, h.trace, l)
    requires (r.TaskError? || r.Panicked?) && RightResult(p, h.rank, s, r)
    ensures RightEnd(p, maxSize, ticks, h, s, r)
  {
    RunIsTrace(stage, p, h.graph, maxSize, ticks, h.trace, l);
  }

  lemma UnfinishedIsRight(stage: Stage, p: Plan, maxSize: nat, ticks: seq<Tick>, h: History, l: Loop)
    requires InRun(stage, p, h.graph, maxSize, ticks, h.trace, l) && |h.trace| == |ticks|
    requires stage.Collecting? || (stage.Between? && l.spec.Remaining() != {})
    ensures RightEnd(p, maxSize, ticks, h, l.sys, StillRunning)
  {
    RunIsTrace(stage, p, h.graph, maxSize, ticks, h.trace, l);
    RunIsUnfinished(stage, p, h.graph, maxSize, ticks, h.trace, l);
  }

  datatype PollResult = Idle | Finished(job: JobId) | Ended(result: Result)

  class Execution {
    const plan: Plan
    const graph: FlowGraph
    const maxSize: nat
    const ordering: Ordering
    const promises: PromiseSet<JobId, (JobId, Outcome)>

    /** The jobs not submitted yet. */
    var tasks: map<JobId, Job>
    var open: seq<Weighted>
    var step: nat
    var tasksRunning: int
    var tasksCompleted: int
    /** The submitted jobs, as the workers advance them, and the promises they read and write. */
    var sys: Sys

    ghost const rank: map<JobId, nat>
    ghost var waiting: set<JobId>
    ghost var flight: set<JobId>

    ghost function Footprint(): set<object> {
      {this, promises, ordering.Object()}
    }

    ghost function View(): Loop
      reads Footprint()
    {
      Loop(tasks, open, step, sys, promises.State(), tasksRunning, tasksCompleted, ordering.Spec(), waiting, flight)
    }

    ghost predicate Apart()
      reads Footprint()
    {
      && ordering.Object() != this && ordering.Object() != promises && ordering.Valid()
      && (ordering.UseStepped? ==> ordering.Width() == maxSize)
    }

    ghost predicate Valid()
      reads Footprint()
    {
      Apart() && Coherent(plan, rank, graph, View(), [])
    }

    constructor (plan: Plan, graph: FlowGraph, maxSize: nat, ordering: Ordering, ghost rank: map<JobId, nat>)
      requires WellWired(plan) && Evaluable(plan, rank) && GraphOf(plan, graph)
      requires ordering.Valid() && ordering.Spec() == ReadySet(DepsOf(plan.jobs), {}, {})
      requires ordering.UseStepped? ==> ordering.Width() == maxSize
      ensures Valid() && fresh(this) && fresh(promises)
      ensures this.plan == plan && this.graph == graph && this.maxSize == maxSize && this.ordering == ordering
      ensures this.rank == rank && View() == FirstLoop(plan)
    {
      this.plan, this.graph, this.maxSize, this.ordering, this.rank := plan, graph, maxSize, ordering, rank;
      promises := new PromiseSet();
      tasks, open, step, sys, waiting, flight := plan.jobs, [], 1, Initial(plan), {}, {};
      tasksRunning, tasksCompleted := 0, 0;
      FirstIsCoherent(plan, rank, graph);
    }

    /** With the stepped ordering, no more jobs than workers are waiting in the heap or submitted. */
    lemma InFlightBounded()
      requires Valid() && ordering.UseStepped? && maxSize > 0
      ensures |waiting| + tasksRunning <= maxSize
    {
      Aspects(plan, rank, graph, View(), []);
      ordering.InFlightBound();
      assert |waiting + flight| == |waiting| + |flight|;
    }

    /** Polls the ordering and puts what it hands out into the heap.  While jobs remain, one is then in the
        heap or submitted. */
    method PollOrdering() returns (out: seq<JobId>)
      requires Valid()
      modifies this, ordering.Object()
      ensures Valid()
      ensures old(View()).spec.MayPoll(out)
      ensures OpenIds(open) == OpenIds(old(open)) + out
      ensures Pushed(old(open), open, old(step))
      ensures View() == AfterHandOut(old(View()), out, open)
      ensures ordering.Spec().Remaining() != {} ==> open != [] || flight != {}
    {
      ghost var before := View();
      Aspects(plan, rank, graph, before, []);
      out := HandOut();
      HandOutKeepsCoherent(plan, rank, graph, before, out, open);
    }

    method HandOut() returns (out: seq<JobId>)
      requires Apart() && 0 < step <= MAX_USIZE && HeapWeights(open, graph)
      modifies this, ordering.Object()
      ensures Apart()
      ensures old(ordering.Spec()).MayPoll(out) && ordering.Spec().Legal()
      ensures OpenIds(open) == OpenIds(old(open)) + out && HeapWeights(open, graph)
      ensures Pushed(old(open), open, old(step))
      ensures View() == AfterHandOut(old(View()), out, open)
    {
      out := ordering.Poll();
      ordering.SpecIsLegal();
      open := PushAll(open, out, graph, step);
      waiting := waiting + set j | j in out;
    }

    /** Submits the best waiting jobs, as many as there are workers free. */
    method SubmitBatch(running: nat) returns (batch: seq<Weighted>)
      requires Valid() && running <= maxSize
      modifies this, promises
      ensures Valid()
      ensures tasksCompleted == old(tasksCompleted) && step == old(step) && ordering.Spec() == old(ordering.Spec())
      ensures |batch| == (if maxSize - running <= |old(open)| then maxSize - running else |old(open)|)
      ensures multiset(old(open)) == multiset(batch) + multiset(open)
      ensures Orderly(old(open)) ==> TopFirst(batch, open)
      ensures View() == AfterSubmits(old(View()).(open := open), OpenIds(batch))
      ensures running < maxSize && (old(open) != [] || old(flight) != {}) ==> flight != {}
    {
      var free := maxSize - running;
      ghost var before := View();
      var rest;
      batch, rest := DrainBatch(open, if free <= |open| then free else |open|);
      DrainKeepsCoherent(plan, rank, graph, before, batch, rest);
      SetOpen(rest);
      SubmitAll(OpenIds(batch));
      SubmitsKeepOpen(before.(open := rest), OpenIds(batch));
      SubmitsMoveToFlight(before.(open := rest), OpenIds(batch));
      if batch != [] {
        assert OpenIds(batch)[0] in flight;
      }
    }

    method SetOpen(rest: seq<Weighted>)
      requires Apart()
      modifies `open
      ensures Apart() && View() == old(View()).(open := rest)
    {
      open := rest;
    }

    /** Takes one job after another out of the map `tasks` and gives it to the pool. */
    method SubmitAll(ids: seq<JobId>)
      requires Apart() && Coherent(plan, rank, graph, View(), ids)
      modifies this, promises
      ensures Valid()
      ensures View() == AfterSubmits(old(View()), ids)
    {
      ghost var before := View();
      assert ids[..0] == [];
      for i := 0 to |ids|
        invariant Apart()
        invariant View() == AfterSubmits(before, ids[..i])
      {
        SubmittedInTurn(plan, rank, graph, before, ids, i);
        SubmitsInTurn(before, ids, i);
        // "Task not found" does not happen.
        assert ids[i] in tasks;
        GiveToPool(ids[i]);
      }
      assert ids[..|ids|] == ids;
      AllSubmittedCoherent(plan, rank, graph, before, ids);
    }

    method GiveToPool(job: JobId)
      requires Apart() && job in tasks
      modifies this, promises
      ensures Apart()
      ensures View() == AfterSubmit(old(View()), job)
    {
      tasksRunning := tasksRunning + 1;
      tasks := tasks - {job};
      sys := Move(sys, job, Queued);
      promises.Insert(job);
      waiting, flight := waiting - {job}, flight + {job};
    }

    /** The workers go on, and then the promises are asked once: `poll_any` and what is done with its answer.
        If any submitted job has completed and can be seen, the answer is not that nothing is ready. */
    method PollOnce(tick: Tick) returns (r: PollResult)
      requires Valid()
      modifies this, promises, ordering.Object()
      ensures r.Idle? || r.Finished? ==> Valid() && PollStep(plan, tick, old(View()), View())
      ensures r.Idle? ==> forall j :: j in old(flight) ==> !Visible(sys.progress, tick.seen, j)
      ensures r.Idle? ==> promises.finished == [] && tasksCompleted == old(tasksCompleted)
      ensures r.Idle? ==> ordering.Spec() == old(ordering.Spec())
      ensures r.Finished? ==> r.job in old(flight) && tasksCompleted == old(tasksCompleted) + 1
      ensures r.Finished? ==> r.job !in old(ordering.Spec()).finished
      ensures r.Finished? ==> ordering.Spec() == old(ordering.Spec()).AfterOffer(r.job)
      ensures r.Idle? || r.Finished? ==> step == old(step) && open == old(open)
      ensures r.Ended? ==> (r.result.TaskError? || r.result.Panicked?) && RightResult(plan, rank, sys, r.result)
      ensures old(flight) != {} && Productive(plan, tick) ==> !r.Idle?
    {
      ghost var before := View();
      CanWork(plan, rank, graph, before);
      var crash, answer := PollAny(tick);
      if crash.Some? {
        CrashIsEval(plan, rank, graph, before, tick, crash.value);
        return Ended(Panicked(crash.value));
      }
      ghost var asked := AfterAsk(AfterWork(plan, before, tick), tick.seen);
      if answer.None? || answer.value.Pending? {
        IdlePoll(plan, rank, graph, before, tick);
        return Idle;
      }
      var (job, outcome) := answer.value.value;
      FirstResultIsEval(plan, rank, graph, before, tick);
      if outcome.Failed? {
        return Ended(TaskError(job, outcome.error));
      }
      OfferBack(job, outcome, asked);
      OfferBackKeepsCoherent(plan, rank, graph, before, tick);
      return Finished(job);
    }

    /** The workers' steps and then `poll_any`. */
    method PollAny(tick: Tick) returns (crash: Option<JobId>, answer: Option<Poll<(JobId, Outcome)>>)
      requires Apart() && WellWired(plan) && Shaped(plan, sys)
      modifies this, promises
      ensures Apart()
      ensures var worked := AfterWork(plan, old(View()), tick);
              match crash
              case Some(j) =>
                View() == worked && j in worked.results.promises && CrashVisible(worked.sys.progress, tick.seen, j)
              case None => NoCrash(worked, tick.seen) && Answered(AfterAsk(worked, tick.seen), answer)
    {
      Work(tick.work);
      answer := None;
      crash := FirstCrash(tick.seen);
      if crash.None? {
        answer := Ask(tick.seen);
      }
    }

    /** The answer to a poll that has left the promise set as in `asked`, but for the result it returns. */
    ghost predicate Answered(asked: Loop, answer: Option<Poll<(JobId, Outcome)>>)
      reads Footprint()
    {
      if asked.results.finished == [] then
        View() == asked && (answer.None? || answer.value.Pending?)
      else
        && answer == Some(Ready(asked.results.finished[0]))
        && View() == asked.(results := asked.results.(finished := SwapRemoveFirst(asked.results.finished)))
    }

    /** The loop of `execute`, for as long as the pool is observed. */
    method Run(ticks: seq<Tick>) returns (r: Result, ghost trace: seq<Look>)
      requires Valid() && View() == FirstLoop(plan)
      requires forall i :: 0 <= i < |ticks| ==> ticks[i].running <= maxSize
      modifies this, promises, ordering.Object()
      ensures RightEnd(plan, maxSize, ticks, History(rank, graph, trace), sys, r)
    {
      var n := 0;
      trace := [];
      RunStarts(plan, graph, maxSize, ticks);
      while true
        invariant n == |trace| <= |ticks| && Valid()
        invariant InRun(Between, plan, graph, maxSize, ticks, trace, View())
        decreases |ticks| - n
      {
        var empty := ordering.Empty();
        if empty {
          SuccessIsRight(plan, maxSize, ticks, History(rank, graph, trace), View());
          return Success, trace;
        }
        if n == |ticks| {
          UnfinishedIsRight(Between, plan, maxSize, ticks, History(rank, graph, trace), View());
          return StillRunning, trace;
        }
        var end;
        var newlyReady;
        n, end, newlyReady, trace := Round(ticks, n, trace);
        if end.Some? {
          return end.value, trace;
        }
      }
    }

    /** One iteration: hands out, submits, and takes the results there are. */
    method Round(ticks: seq<Tick>, first: nat, ghost earlier: seq<Look>)
      returns (n: nat, end: Option<Result>, newlyReady: seq<JobId>, ghost trace: seq<Look>)
      requires Valid() && ordering.Spec().Remaining() != {}
      requires first == |earlier| < |ticks| && ticks[first].running <= maxSize
      requires InRun(Between, plan, graph, maxSize, ticks, earlier, View())
      modifies this, promises, ordering.Object()
      ensures end.None? ==> Valid() && first < n == |trace| <= |ticks|
      ensures end.None? ==> InRun(Between, plan, graph, maxSize, ticks, trace, View())
      ensures 0 < old(step) <= MAX_USIZE && old(ordering.Spec()).MayPoll(newlyReady)
      ensures end.None? ==>
                step == if tasksCompleted > old(tasksCompleted) || newlyReady != [] then NextStep(old(step))
                        else old(step)
      ensures end.Some? ==> RightEnd(plan, maxSize, ticks, History(rank, graph, trace), sys, end.value)
    {
      newlyReady := BeginRound(ticks, first, earlier);
      var anyFinished;
      n, anyFinished, end, trace := CollectFinished(ticks, first, earlier);
      if end.None? {
        ghost var paused := View();
        if anyFinished || newlyReady != [] {
          IncrementStep();
        }
        RunResumes(plan, graph, maxSize, ticks, trace, paused, View());
      }
    }

    method BeginRound(ticks: seq<Tick>, first: nat, ghost earlier: seq<Look>) returns (newlyReady: seq<JobId>)
      requires Valid() && ordering.Spec().Remaining() != {}
      requires first == |earlier| < |ticks| && ticks[first].running <= maxSize
      requires InRun(Between, plan, graph, maxSize, ticks, earlier, View())
      modifies this, promises, ordering.Object()
      ensures Valid() && step == old(step) && tasksCompleted == old(tasksCompleted)
      ensures 0 < old(step) <= MAX_USIZE && old(ordering.Spec()).MayPoll(newlyReady)
      ensures InRun(Submitted, plan, graph, maxSize, ticks, earlier, View())
    {
      StepKeepsCoherent(plan, rank, graph, View());
      ghost var before := View();
      newlyReady := HandOutAndSubmit(ticks[first].running);
      RunSubmits(plan, graph, maxSize, ticks, earlier, before, View());
    }

    /** The first half of an iteration.  With a worker free, something is in flight afterwards. */
    method HandOutAndSubmit(running: nat) returns (newlyReady: seq<JobId>)
      requires Valid() && ordering.Spec().Remaining() != {} && running <= maxSize
      modifies this, promises, ordering.Object()
      ensures Valid() && step == old(step) && tasksCompleted == old(tasksCompleted)
      ensures old(ordering.Spec()).MayPoll(newlyReady) && ordering.Spec() == old(ordering.Spec()).AfterPoll(newlyReady)
      ensures running < maxSize ==> flight != {}
      ensures Dispatched(graph, maxSize - running, old(View()), View())
    {
      ghost var before := View();
      newlyReady := PollOrdering();
      ghost var handed := View();
      Aspects(plan, rank, graph, handed, []);
      var batch := SubmitBatch(running);
      assert HandsOut(graph, before, handed, newlyReady) && Submits(maxSize - running, handed, View(), batch);
    }

    method IncrementStep()
      requires Valid()
      modifies `step
      ensures Valid() && 0 < old(step) <= MAX_USIZE && View() == old(View()).(step := NextStep(old(step)))
    {
      StepKeepsCoherent(plan, rank, graph, View());
      step := NextStep(step);
    }

    /** The inner loop: takes results until none is ready or one ends the execution. */
    method CollectFinished(ticks: seq<Tick>, first: nat, ghost earlier: seq<Look>)
      returns (n: nat, anyFinished: bool, end: Option<Result>, ghost trace: seq<Look>)
      requires Valid() && first == |earlier| < |ticks|
      requires InRun(Submitted, plan, graph, maxSize, ticks, earlier, View())
      modifies this, promises, ordering.Object()
      ensures end.None? ==> Valid() && first < n == |trace| <= |ticks|
      ensures end.None? ==> InRun(Paused, plan, graph, maxSize, ticks, trace, View())
      ensures end.None? ==>
                promises.finished == [] && step == old(step) && (anyFinished <==> tasksCompleted > old(tasksCompleted))
      ensures end.Some? ==> RightEnd(plan, maxSize, ticks, History(rank, graph, trace), sys, end.value)
    {
      n, anyFinished, end, trace := first, false, None, earlier;
      while true
        invariant first <= n == |trace| <= |ticks| && Valid() && end.None?
        invariant step == old(step) && (anyFinished <==> n > first)
        invariant if n == first then tasksCompleted == old(tasksCompleted) else tasksCompleted > old(tasksCompleted)
        invariant InRun(if n == first then Submitted else Collecting, plan, graph, maxSize, ticks, trace, View())
        decreases |ticks| - n
      {
        ghost var stage := if n == first then Submitted else Collecting;
        ghost var before := View();
        if n == |ticks| {
          UnfinishedIsRight(stage, plan, maxSize, ticks, History(rank, graph, trace), before);
          return n, anyFinished, Some(StillRunning), trace;
        }
        var polled := PollOnce(ticks[n]);
        if polled.Ended? {
          ErrorIsRight(stage, plan, maxSize, ticks, History(rank, graph, trace), before, sys, polled.result);
          return n, anyFinished, Some(polled.result), trace;
        }
        RunPolls(stage, plan, graph, maxSize, ticks, trace, before, View());
        n, trace := n + 1, trace + [Look(n == first, before, View())];
        if polled.Idle? {
          return n, anyFinished, None, trace;
        }
        anyFinished := true;
      }
    }

    method Work(work: seq<Event>)
      requires Apart() && WellWired(plan) && Shaped(plan, sys)
      modifies `sys
      ensures Apart()
      ensures View() == old(View()).(sys := Works(plan, old(sys), work))
    {
      sys := Works(plan, sys, work);
    }

    /** The first promise that panics when it is polled, its job having crashed. */
    method FirstCrash(seen: set<JobId>) returns (c: Option<JobId>)
      ensures c.Some? ==> c.value in promises.promises && CrashVisible(sys.progress, seen, c.value)
      ensures c.None? ==> forall j :: j in promises.promises ==> !CrashVisible(sys.progress, seen, j)
    {
      for i := 0 to |promises.promises|
        invariant forall k :: 0 <= k < i ==> !CrashVisible(sys.progress, seen, promises.promises[k])
      {
        if CrashVisible(sys.progress, seen, promises.promises[i]) {
          return Some(promises.promises[i]);
        }
      }
      return None;
    }

    method Ask(seen: set<JobId>) returns (answer: Option<Poll<(JobId, Outcome)>>)
      requires Apart()
      modifies promises
      ensures Apart()
      ensures Answered(AfterAsk(old(View()), seen), answer)
    {
      answer := promises.PollAny(Answers(promises.promises, sys.progress, seen));
    }

    /** Records that a job has finished and offers it back; the ordering knows the job. */
    method OfferBack(job: JobId, outcome: Outcome, ghost asked: Loop)
      requires Apart() && job in ordering.Spec().inFlight
      requires asked.results.finished != [] && asked.results.finished[0] == (job, outcome)
      requires View() == asked.(results := asked.results.(finished := SwapRemoveFirst(asked.results.finished)))
      modifies this, ordering.Object()
      ensures Apart() && ordering.Spec().Legal()
      ensures View() == AfterOfferBack(asked)
    {
      tasksCompleted := tasksCompleted + 1;
      tasksRunning := tasksRunning - 1;
      var offered := ordering.Offer(job);
      ordering.SpecIsLegal();
      sys := Move(sys, job, Collected(outcome));
      flight := flight - {job};
    }
  }

  /** The graph the weights are taken from is that of the jobs' dependencies. */
  ghost predicate GraphOf(p: Plan, graph: FlowGraph) {
    forall d, j :: j in graph.Dependents(d) <==> j in p.jobs && d in p.jobs[j].deps
  }

  /** Pushes ready jobs, weighted by their dependents and the current step. */
  method PushAll(open: seq<Weighted>, ready: seq<JobId>, graph: FlowGraph, step: nat) returns (pushed: seq<Weighted>)
    requires HeapWeights(open, graph) && 0 < step <= MAX_USIZE
    ensures OpenIds(pushed) == OpenIds(open) + ready && HeapWeights(pushed, graph)
    ensures Pushed(open, pushed, step)
  {
    pushed := open;
    for i := 0 to |ready|
      invariant OpenIds(pushed) == OpenIds(open) + ready[..i] && HeapWeights(pushed, graph)
      invariant |pushed| == |open| + i && pushed[..|open|] == open
      invariant forall k :: |open| <= k < |pushed| ==> pushed[k].step == step
    {
      pushed := pushed + [Weighted(ready[i], |graph.Dependents(ready[i])| + 1, step)];
      assert OpenIds(pushed) == OpenIds(pushed[..|pushed| - 1]) + [ready[i]];
      assert ready[..i + 1] == ready[..i] + [ready[i]];
    }
  }

  // ---------------------------------------------------------------------------------------------
  // Executing a flow
  // ---------------------------------------------------------------------------------------------

  ghost predicate HasOrder(deps: Deps) {
    exists order :: IsTopological(deps, order)
  }

  /** The place of a job in a topological order, counted from the end. */
  ghost function RankFrom(order: seq<JobId>, j: JobId): nat
    requires j in order
  {
    var i :| 0 <= i < |order| && order[i] == j;
    |order| - i
  }

  lemma OrderIsRank(deps: Deps, order: seq<JobId>) returns (rank: map<JobId, nat>)
    requires IsTopological(deps, order)
    ensures IsRank(deps, rank)
  {
    rank := map j | j in deps :: RankFrom(order, j);
    forall j, d | j in deps && d in deps[j] && d in deps ensures rank[d] < rank[j] {
      var p :| 0 <= p < |order| && order[p] == j && rank[j] == |order| - p;
      var q :| 0 <= q < |order| && order[q] == d && rank[d] == |order| - q;
      assert order[q] in deps[order[p]];
    }
  }

  /** `create_ordering` of the chosen orderer; `topo` is what the search for a topological order finds. */
  method CreateOrdering(deps: Deps, useStepped: bool, topo: Option<seq<JobId>>, maxSize: nat)
    returns (r: Option<Ordering>)
    requires Closed(deps) && (topo.Some? ==> IsTopological(deps, topo.value))
    ensures r.None? <==> topo.None?
    ensures r.Some? ==> fresh(r.value.Object()) && r.value.Valid() && r.value.Spec() == ReadySet(deps, {}, {})
    ensures r.Some? ==> r.value.UseStepped? == useStepped && (useStepped ==> r.value.Width() == maxSize)
  {
    if topo.None? {
      return None;
    }
    if useStepped {
      var s := NewStepped(deps, topo, maxSize);
      return Some(UseStepped(s.value));
    } else {
      var t := new GraphTraversalOrdering(deps, topo.value);
      return Some(UseTraversal(t));
    }
  }

  method GraphOfPlan(p: Plan) returns (graph: FlowGraph)
    ensures GraphOf(p, graph)
  {
    graph := NewFlowGraph(DepsOf(p.jobs));
    forall d, j ensures j in graph.Dependents(d) <==> j in p.jobs && d in p.jobs[j].deps {
      assert graph.Dependencies(j) == if j in p.jobs then p.jobs[j].deps else {};
    }
  }

  /** `FlowBackend::execute`, with either orderer, over any behaviour of the pool. */
  method Execute(p: Plan, useStepped: bool, topo: Option<seq<JobId>>, maxSize: nat, ticks: seq<Tick>)
    returns (r: Result, sys: Sys, ghost h: History)
    requires WellWired(p)
    requires match topo case Some(order) => IsTopological(DepsOf(p.jobs), order) case None => !HasOrder(DepsOf(p.jobs))
    requires forall i :: 0 <= i < |ticks| ==> ticks[i].running <= maxSize
    ensures r.Cyclic? <==> !HasOrder(DepsOf(p.jobs))
    ensures !r.Cyclic? ==> Evaluable(p, h.rank) && GraphOf(p, h.graph) && RightEnd(p, maxSize, ticks, h, sys, r)
  {
    var flowGraph := GraphOfPlan(p);
    var ordering := CreateOrdering(DepsOf(p.jobs), useStepped, topo, maxSize);
    sys, h := Initial(p), History(map[], flowGraph, []);
    if ordering.None? {
      return Cyclic, sys, h;
    }
    ghost var rank := OrderIsRank(DepsOf(p.jobs), topo.value);
    var execution := new Execution(p, flowGraph, maxSize, ordering.value, rank);
    ghost var trace;
    r, trace := execution.Run(ticks);
    sys, h := execution.sys, History(rank, flowGraph, trace);
  }

  /** An execution that has ended succeeded exactly if all jobs of the flow evaluate to a value. */
  lemma EndedAsEvaluated(p: Plan, maxSize: nat, ticks: seq<Tick>, h: History, s: Sys, r: Result)
    requires Evaluable(p, h.rank) && RightEnd(p, maxSize, ticks, h, s, r) && !r.StillRunning?
    ensures r.Success? <==> forall j :: j in p.jobs ==> Eval(p, h.rank, j).Done?
  {
    if r.Success? {
      forall j | j in p.jobs ensures Eval(p, h.rank, j).Done? {
        assert CollectedAsEvaluated(p, h.rank, s.progress, j);
      }
    }
  }

  /** An execution ends once it has been polled twice for each job, not counting the iterations that stalled. */
  lemma UnstalledFlowsSucceed(p: Plan, maxSize: nat, ticks: seq<Tick>, h: History, s: Sys, r: Result)
    requires WellWired(p) && Evaluable(p, h.rank) && RightEnd(p, maxSize, ticks, h, s, r)
    requires |ticks| >= 2 * |p.jobs| + Stalls(p, ticks, h.trace, |h.trace|)
    ensures r.Success? <==> forall j :: j in p.jobs ==> Eval(p, h.rank, j).Done?
  {
    if r.StillRunning? {
      UnfinishedIsShort(p, h.rank, h.graph, maxSize, ticks, h.trace);
    }
    EndedAsEvaluated(p, maxSize, ticks, h, s, r);
  }

  /** With a pool that, whatever is in flight, completes a job visibly within every `k` polls, a flow all of whose
      jobs evaluate to a value succeeds. */
  lemma ResponsiveFlowsSucceed(p: Plan, maxSize: nat, ticks: seq<Tick>, h: History, s: Sys, r: Result, k: nat)
    requires WellWired(p) && Evaluable(p, h.rank) && RightEnd(p, maxSize, ticks, h, s, r)
    requires Responsive(p, ticks, h.trace, k) && |ticks| >= k * (|p.jobs| + 1)
    ensures r.Success? <==> forall j :: j in p.jobs ==> Eval(p, h.rank, j).Done?
  {
    ResponsivePoolsFinish(p, h.rank, h.graph, maxSize, ticks, h.trace, k);
    EndedAsEvaluated(p, maxSize, ticks, h, s, r);
  }

  /** So it does with a pool that often enough completes all it is given between two polls. */
  lemma CleanFlowsSucceed(p: Plan, maxSize: nat, ticks: seq<Tick>, h: History, s: Sys, r: Result)
    requires WellWired(p) && Evaluable(p, h.rank) && RightEnd(p, maxSize, ticks, h, s, r)
    requires FairCount(p, maxSize, ticks, |ticks|) >= 2 * |p.jobs|
    ensures r.Success? <==> forall j :: j in p.jobs ==> Eval(p, h.rank, j).Done?
  {
    if r.StillRunning? {
      UnfinishedIsShort(p, h.rank, h.graph, maxSize, ticks, h.trace);
      FairPollsDoNotStall(p, h.rank, h.graph, maxSize, ticks, h.trace);
    }
    EndedAsEvaluated(p, maxSize, ticks, h, s, r);
  }

  lemma CollectedAlike(p: Plan, rank: map<JobId, nat>, pr: Progresses, other: map<JobId, nat>, pr': Progresses,
                       j: JobId)
    requires Evaluable(p, rank) && CollectedAsEvaluated(p, rank, pr, j)
    requires Evaluable(p, other) && CollectedAsEvaluated(p, other, pr', j)
    ensures pr[j] == pr'[j]
  {
    EvalIsIntrinsic(p, rank, other, j);
  }

  /** Two successful executions of a flow, with whatever orderers and pools, end with the same outputs. */
  lemma SuccessesAgree(p: Plan, rank: map<JobId, nat>, s: Sys, other: map<JobId, nat>, s': Sys, j: JobId)
    requires AllAsEvaluated(p, rank, s) && AllAsEvaluated(p, other, s') && j in p.jobs
    ensures j in s.progress && j in s'.progress && s.progress[j] == s'.progress[j] && IsCollected(s.progress, j)
  {
    assert CollectedAsEvaluated(p, rank, s.progress, j) && CollectedAsEvaluated(p, other, s'.progress, j);
    CollectedAlike(p, rank, s.progress, other, s'.progress, j);
  }

  /** After a successful execution, the flow's output promise is ready with the value of its job. */
  lemma OutputAfterSuccess(p: Plan, rank: map<JobId, nat>, s: Sys)
    requires WellWired(p) && AllAsEvaluated(p, rank, s) && Inv(p, rank, s) && p.output.Some?
    ensures Eval(p, rank, p.output.value.job).Done?
    ensures PollLeaf(p, s.store, p.output.value).0 ==
            match Delivers(p, p.output.value, Eval(p, rank, p.output.value.job).value) {
              case Some(v) => Got(v)
              case None => Burst
            }
  {
    assert CollectedAsEvaluated(p, rank, s.progress, p.output.value.job);
    OutputIsEval(p, rank, s);
  }
}
