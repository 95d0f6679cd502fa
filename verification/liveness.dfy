/**
  How long an execution can go on: the polls of a run of the execution loop, and what keeps them from finishing
  jobs.  Only the polls that end an execution are missing from a trace.
 */
module Liveness {
  import opened Graphs
  import opened Promises
  import opened Jobs
  import opened Engine
  import opened Working
  import opened Orderings
  import opened Dispatch
  import opened Scheduling
  import opened Wrappers

  // ---------------------------------------------------------------------------------------------
  // Runs of the loop, poll by poll
  // ---------------------------------------------------------------------------------------------

  /** One poll of the promises; `first`: the first of its iteration, right after submitting. */
  datatype Look = Look(first: bool, before: Loop, after: Loop)

  predicate Idle(look: Look) {
    look.after.tasksCompleted == look.before.tasksCompleted
  }

  /** The workers' steps, and then a poll that finds nothing or a job that succeeded, which is offered back. */
  ghost predicate PollStep(p: Plan, tick: Tick, l: Loop, l': Loop) {
    && WellWired(p) && Shaped(p, l.sys) && NoCrash(AfterWork(p, l, tick), tick.seen)
    && var asked := AfterAsk(AfterWork(p, l, tick), tick.seen);
       if asked.results.finished == [] then l' == asked
       else asked.results.finished[0].1.Done? && l' == AfterOfferBack(asked)
  }

  /** What is in the heap stays, and what is added carries the given step. */
  predicate Pushed(open: seq<Weighted>, pushed: seq<Weighted>, step: nat) {
    open <= pushed && forall i :: |open| <= i < |pushed| ==> pushed[i].step == step
  }

  ghost predicate HandsOut(graph: FlowGraph, l: Loop, l': Loop, out: seq<JobId>) {
    && l.spec.MayPoll(out) && OpenIds(l'.open) == OpenIds(l.open) + out
    && HeapWeights(l'.open, graph) && Pushed(l.open, l'.open, l.step)
    && l' == AfterHandOut(l, out, l'.open)
  }

  ghost predicate Submits(free: nat, l: Loop, l': Loop, batch: seq<Weighted>) {
    && |batch| == (if free <= |l.open| then free else |l.open|)
    && multiset(l.open) == multiset(batch) + multiset(l'.open)
    && (Orderly(l.open) ==> TopFirst(batch, l'.open))
    && l' == AfterSubmits(l.(open := l'.open), OpenIds(batch))
  }

  /** The first half of an iteration, with `free` workers. */
  ghost predicate Dispatched(graph: FlowGraph, free: nat, l: Loop, l': Loop) {
    && l.spec.Remaining() != {}
    && exists m, out, batch :: HandsOut(graph, l, m, out) && Submits(free, m, l', batch)
  }

  predicate MayAdvance(l: Loop, l': Loop) {
    l' == l || (0 < l.step <= MAX_USIZE && l' == l.(step := NextStep(l.step)))
  }

  /** An iteration that starts from `l`, after the step of the iteration before may have advanced. */
  ghost predicate StartsRound(graph: FlowGraph, maxSize: nat, tick: Tick, l: Loop, l': Loop) {
    tick.running <= maxSize && exists m :: MayAdvance(l, m) && Dispatched(graph, maxSize - tick.running, m, l')
  }

  /** A poll that found nothing ended the iteration before, and the step may have advanced since. */
  ghost predicate Resumes(p: Plan, trace: seq<Look>, l: Loop) {
    if trace == [] then l == FirstLoop(p)
    else Idle(trace[|trace| - 1]) && MayAdvance(trace[|trace| - 1].after, l)
  }

  /** A new iteration has handed out and submitted, and left the loop as in `l`. */
  ghost predicate NewRound(p: Plan, graph: FlowGraph, maxSize: nat, tick: Tick, trace: seq<Look>, l: Loop) {
    && (trace == [] || Idle(trace[|trace| - 1]))
    && StartsRound(graph, maxSize, tick, if trace == [] then FirstLoop(p) else trace[|trace| - 1].after, l)
  }

  predicate Continues(trace: seq<Look>, l: Loop) {
    trace != [] && !Idle(trace[|trace| - 1]) && l == trace[|trace| - 1].after
  }

  lemma ResumedStartsRound(p: Plan, graph: FlowGraph, maxSize: nat, tick: Tick, trace: seq<Look>, l: Loop, l': Loop)
    requires Resumes(p, trace, l) && tick.running <= maxSize && Dispatched(graph, maxSize - tick.running, l, l')
    ensures NewRound(p, graph, maxSize, tick, trace, l')
  {
    assert MayAdvance(if trace == [] then FirstLoop(p) else trace[|trace| - 1].after, l);
  }

  /** Where the next poll of a trace finds the loop. */
  ghost predicate Next(p: Plan, graph: FlowGraph, maxSize: nat, tick: Tick, trace: seq<Look>, look: Look) {
    if look.first then NewRound(p, graph, maxSize, tick, trace, look.before) else Continues(trace, look.before)
  }

  ghost predicate IsTrace(p: Plan, graph: FlowGraph, maxSize: nat, ticks: seq<Tick>, trace: seq<Look>) {
    |trace| <= |ticks| && forall i :: 0 <= i < |trace| ==> IsLook(p, graph, maxSize, ticks[i], trace[..i], trace[i])
  }

  ghost predicate IsLook(p: Plan, graph: FlowGraph, maxSize: nat, tick: Tick, earlier: seq<Look>, look: Look) {
    Next(p, graph, maxSize, tick, earlier, look) && PollStep(p, tick, look.before, look.after)
  }

  lemma MoreTrace(p: Plan, graph: FlowGraph, maxSize: nat, ticks: seq<Tick>, trace: seq<Look>, look: Look)
    requires IsTrace(p, graph, maxSize, ticks, trace) && |trace| < |ticks|
    requires IsLook(p, graph, maxSize, ticks[|trace|], trace, look)
    ensures IsTrace(p, graph, maxSize, ticks, trace + [look])
  {
    forall i | 0 <= i < |trace + [look]|
      ensures IsLook(p, graph, maxSize, ticks[i], (trace + [look])[..i], (trace + [look])[i])
    {
      if i < |trace| {
        assert IsLook(p, graph, maxSize, ticks[i], trace[..i], trace[i]);
        assert (trace + [look])[..i] == trace[..i];
      } else {
        assert (trace + [look])[..i] == trace;
      }
    }
  }

  // ---------------------------------------------------------------------------------------------
  // Every poll of a trace is of a coherent loop
  // ---------------------------------------------------------------------------------------------

  lemma PollStaysLegal(spec: ReadySet, out: seq<JobId>)
    requires spec.Legal() && spec.MayPoll(out)
    ensures spec.AfterPoll(out).Legal()
  {
    forall j | j in out ensures j in spec.Ready() {
    }
  }

  lemma OfferStaysLegal(spec: ReadySet, j: JobId)
    requires spec.Legal() && j in spec.inFlight
    ensures spec.AfterOffer(j).Legal()
  {
  }

  lemma HandsOutKeepsCoherent(p: Plan, rank: map<JobId, nat>, graph: FlowGraph, l: Loop, l': Loop, out: seq<JobId>)
    requires Coherent(p, rank, graph, l, []) && HandsOut(graph, l, l', out)
    ensures Coherent(p, rank, graph, l', []) && l'.tasksCompleted == l.tasksCompleted
    ensures l.spec.Remaining() != {} ==> l'.open != [] || l'.flight != {}
  {
    assert l.spec.Legal() by {
      Aspects(p, rank, graph, l, []);
    }
    PollStaysLegal(l.spec, out);
    HandOutKeepsCoherent(p, rank, graph, l, out, l'.open);
  }

  lemma SubmitsKeepsCoherent(p: Plan, rank: map<JobId, nat>, graph: FlowGraph, free: nat, l: Loop, l': Loop,
                             batch: seq<Weighted>)
    requires Coherent(p, rank, graph, l, []) && Submits(free, l, l', batch)
    ensures Coherent(p, rank, graph, l', []) && l'.tasksCompleted == l.tasksCompleted
    ensures free > 0 && (l.open != [] || l.flight != {}) ==> l'.flight != {}
  {
    DrainKeepsCoherent(p, rank, graph, l, batch, l'.open);
    AllSubmittedCoherent(p, rank, graph, l.(open := l'.open), OpenIds(batch));
    SubmitsKeepOpen(l.(open := l'.open), OpenIds(batch));
    SubmitsMoveToFlight(l.(open := l'.open), OpenIds(batch));
    if batch != [] {
      assert OpenIds(batch)[0] in l'.flight;
    }
  }

  lemma DispatchKeepsCoherent(p: Plan, rank: map<JobId, nat>, graph: FlowGraph, free: nat, l: Loop, l': Loop)
    requires Coherent(p, rank, graph, l, []) && Dispatched(graph, free, l, l')
    ensures Coherent(p, rank, graph, l', []) && l'.tasksCompleted == l.tasksCompleted
    ensures free > 0 ==> l'.flight != {}
  {
    var m, out, batch :| HandsOut(graph, l, m, out) && Submits(free, m, l', batch);
    HandsOutKeepsCoherent(p, rank, graph, l, m, out);
    SubmitsKeepsCoherent(p, rank, graph, free, m, l', batch);
  }

  lemma AdvanceKeepsCoherent(p: Plan, rank: map<JobId, nat>, graph: FlowGraph, l: Loop, l': Loop)
    requires Coherent(p, rank, graph, l, []) && MayAdvance(l, l')
    ensures Coherent(p, rank, graph, l', []) && l'.tasksCompleted == l.tasksCompleted
  {
    StepKeepsCoherent(p, rank, graph, l);
  }

  /** An iteration starts with something in flight, unless the scan left no worker free. */
  lemma RoundKeepsCoherent(p: Plan, rank: map<JobId, nat>, graph: FlowGraph, maxSize: nat, tick: Tick, l: Loop,
                           l': Loop)
    requires Coherent(p, rank, graph, l, []) && StartsRound(graph, maxSize, tick, l, l')
    ensures Coherent(p, rank, graph, l', []) && l'.tasksCompleted == l.tasksCompleted
    ensures tick.running < maxSize ==> l'.flight != {}
  {
    var m :| MayAdvance(l, m) && Dispatched(graph, maxSize - tick.running, m, l');
    AdvanceKeepsCoherent(p, rank, graph, l, m);
    DispatchKeepsCoherent(p, rank, graph, maxSize - tick.running, m, l');
  }

  lemma PollKeepsCoherent(p: Plan, rank: map<JobId, nat>, graph: FlowGraph, tick: Tick, l: Loop, l': Loop)
    requires Coherent(p, rank, graph, l, []) && PollStep(p, tick, l, l')
    ensures Coherent(p, rank, graph, l', [])
    ensures l'.tasksCompleted == l.tasksCompleted || l'.tasksCompleted == l.tasksCompleted + 1
  {
    var asked := AfterAsk(AfterWork(p, l, tick), tick.seen);
    AskedIsCoherent(p, rank, graph, l, tick);
    if asked.results.finished != [] {
      assert l.spec.Legal() by {
        Aspects(p, rank, graph, l, []);
      }
      FirstResultIsEval(p, rank, graph, l, tick);
      OfferStaysLegal(l.spec, asked.results.finished[0].0);
      FirstOfferedBack(p, rank, graph, asked);
    }
  }

  lemma {:induction false} TraceIsCoherent(p: Plan, rank: map<JobId, nat>, graph: FlowGraph, maxSize: nat,
                                           ticks: seq<Tick>, trace: seq<Look>, i: nat)
    requires WellWired(p) && Evaluable(p, rank) && IsTrace(p, graph, maxSize, ticks, trace) && i < |trace|
    ensures Coherent(p, rank, graph, trace[i].before, []) && Coherent(p, rank, graph, trace[i].after, [])
    ensures trace[i].before.tasksCompleted == if i == 0 then 0 else trace[i - 1].after.tasksCompleted
    ensures trace[i].first && ticks[i].running < maxSize ==> trace[i].before.flight != {}
  {
    assert IsLook(p, graph, maxSize, ticks[i], trace[..i], trace[i]);
    if i == 0 {
      FirstIsCoherent(p, rank, graph);
      RoundKeepsCoherent(p, rank, graph, maxSize, ticks[0], FirstLoop(p), trace[0].before);
    } else {
      TraceIsCoherent(p, rank, graph, maxSize, ticks, trace, i - 1);
      assert trace[..i][|trace[..i]| - 1] == trace[i - 1];
      if Idle(trace[i - 1]) {
        RoundKeepsCoherent(p, rank, graph, maxSize, ticks[i], trace[i - 1].after, trace[i].before);
      }
    }
    PollKeepsCoherent(p, rank, graph, ticks[i], trace[i].before, trace[i].after);
  }

  // ---------------------------------------------------------------------------------------------
  // What a poll could see
  // ---------------------------------------------------------------------------------------------

  /** Some submitted job has completed, and the scheduler can see it. */
  ghost predicate SomethingVisible(p: Plan, tick: Tick, l: Loop) {
    && WellWired(p) && Shaped(p, l.sys)
    && exists j :: j in l.flight && Visible(AfterWork(p, l, tick).sys.progress, tick.seen, j)
  }

  /** A poll that finds nothing leaves no completed job that it could have seen. */
  lemma IdleSeesNothing(p: Plan, rank: map<JobId, nat>, graph: FlowGraph, tick: Tick, l: Loop, l': Loop)
    requires Coherent(p, rank, graph, l, []) && PollStep(p, tick, l, l') && l'.tasksCompleted == l.tasksCompleted
    ensures !SomethingVisible(p, tick, l)
  {
    if AfterAsk(AfterWork(p, l, tick), tick.seen).results.finished == [] {
      IdlePoll(p, rank, graph, l, tick);
    }
  }

  // ---------------------------------------------------------------------------------------------
  // How many polls an execution can take
  // ---------------------------------------------------------------------------------------------

  /** An iteration whose first poll sees no completed job: none in flight has completed visibly, or, with no
      worker free, nothing may be in flight at all. */
  ghost predicate Stalled(p: Plan, tick: Tick, look: Look) {
    look.first && !SomethingVisible(p, tick, look.before)
  }

  ghost function Stalls(p: Plan, ticks: seq<Tick>, trace: seq<Look>, n: nat): nat
    requires n <= |trace| <= |ticks|
  {
    if n == 0 then 0 else Stalls(p, ticks, trace, n - 1) + if Stalled(p, ticks[n - 1], trace[n - 1]) then 1 else 0
  }

  /** The polls at which the completion of a submitted job could be seen. */
  ghost function Sightings(p: Plan, ticks: seq<Tick>, trace: seq<Look>, n: nat): nat
    requires n <= |trace| <= |ticks|
  {
    if n == 0 then 0
    else Sightings(p, ticks, trace, n - 1) + if SomethingVisible(p, ticks[n - 1], trace[n - 1].before) then 1 else 0
  }

  function Completed(trace: seq<Look>, n: nat): int
    requires n <= |trace|
  {
    if n == 0 then 0 else trace[n - 1].after.tasksCompleted
  }

  /** The poll completes one job or sees none, and exactly after a completion it continues its iteration. */
  ghost predicate PollCounts(p: Plan, ticks: seq<Tick>, trace: seq<Look>, i: nat)
    requires i < |trace| <= |ticks|
  {
    && Completed(trace, i + 1) == Completed(trace, i) + (if Idle(trace[i]) then 0 else 1)
    && (Idle(trace[i]) ==> !SomethingVisible(p, ticks[i], trace[i].before))
    && (trace[i].first <==> i == 0 || Idle(trace[i - 1]))
  }

  lemma EveryPollCounts(p: Plan, rank: map<JobId, nat>, graph: FlowGraph, maxSize: nat, ticks: seq<Tick>,
                        trace: seq<Look>, i: nat)
    requires WellWired(p) && Evaluable(p, rank) && IsTrace(p, graph, maxSize, ticks, trace) && i < |trace|
    ensures PollCounts(p, ticks, trace, i)
  {
    TraceIsCoherent(p, rank, graph, maxSize, ticks, trace, i);
    assert IsLook(p, graph, maxSize, ticks[i], trace[..i], trace[i]);
    PollKeepsCoherent(p, rank, graph, ticks[i], trace[i].before, trace[i].after);
    if Idle(trace[i]) {
      IdleSeesNothing(p, rank, graph, ticks[i], trace[i].before, trace[i].after);
    }
    if i > 0 {
      assert trace[..i][|trace[..i]| - 1] == trace[i - 1];
    }
  }

  lemma {:induction false} CountedPollsArePaidFor(p: Plan, ticks: seq<Tick>, trace: seq<Look>, n: nat)
    requires n <= |trace| <= |ticks| && forall i :: 0 <= i < n ==> PollCounts(p, ticks, trace, i)
    ensures n <= 2 * Completed(trace, n) + Stalls(p, ticks, trace, n)
    ensures n > 0 && !Idle(trace[n - 1]) ==> n + 1 <= 2 * Completed(trace, n) + Stalls(p, ticks, trace, n)
    ensures Sightings(p, ticks, trace, n) <= Completed(trace, n)
  {
    if n > 0 {
      CountedPollsArePaidFor(p, ticks, trace, n - 1);
      assert PollCounts(p, ticks, trace, n - 1);
    }
  }

  /** Polls are paid for by completed jobs, twice each, and by stalls; a poll that sees something completes a job. */
  lemma PollsArePaidFor(p: Plan, rank: map<JobId, nat>, graph: FlowGraph, maxSize: nat, ticks: seq<Tick>,
                        trace: seq<Look>, n: nat)
    requires WellWired(p) && Evaluable(p, rank) && IsTrace(p, graph, maxSize, ticks, trace) && n <= |trace|
    ensures n <= 2 * Completed(trace, n) + Stalls(p, ticks, trace, n)
    ensures n > 0 && !Idle(trace[n - 1]) ==> n + 1 <= 2 * Completed(trace, n) + Stalls(p, ticks, trace, n)
    ensures Sightings(p, ticks, trace, n) <= Completed(trace, n)
  {
    forall i | 0 <= i < n ensures PollCounts(p, ticks, trace, i) {
      EveryPollCounts(p, rank, graph, maxSize, ticks, trace, i);
    }
    CountedPollsArePaidFor(p, ticks, trace, n);
  }

  /** All ticks have been used for polls that did not end the execution, and jobs remain or the last poll has just
      completed one. */
  ghost predicate Unfinished(p: Plan, ticks: seq<Tick>, trace: seq<Look>) {
    && |trace| == |ticks|
    && if trace == [] then p.jobs.Keys != {}
       else !Idle(trace[|trace| - 1]) || trace[|trace| - 1].after.spec.Remaining() != {}
  }

  /** An execution that is still running has made fewer polls than twice its jobs and its stalls, and has had no
      more sightings than jobs. */
  lemma UnfinishedIsShort(p: Plan, rank: map<JobId, nat>, graph: FlowGraph, maxSize: nat, ticks: seq<Tick>,
                          trace: seq<Look>)
    requires WellWired(p) && Evaluable(p, rank) && IsTrace(p, graph, maxSize, ticks, trace)
    requires Unfinished(p, ticks, trace)
    ensures |ticks| < 2 * |p.jobs| + Stalls(p, ticks, trace, |trace|)
    ensures Sightings(p, ticks, trace, |trace|) <= |p.jobs|
  {
    var n := |trace|;
    PollsArePaidFor(p, rank, graph, maxSize, ticks, trace, n);
    if n > 0 {
      TraceIsCoherent(p, rank, graph, maxSize, ticks, trace, n - 1);
      FinishedAreJobs(p, rank, graph, trace[n - 1].after);
    } else {
      assert |p.jobs.Keys| == |p.jobs| && |p.jobs.Keys| > 0;
    }
  }

  // ---------------------------------------------------------------------------------------------
  // Where an execution stands in its trace
  // ---------------------------------------------------------------------------------------------

  datatype Stage = Between | Submitted | Collecting | Paused

  ghost predicate At(stage: Stage, p: Plan, trace: seq<Look>, l: Loop) {
    match stage
    case Between => Resumes(p, trace, l)
    case Submitted => true
    case Collecting => Continues(trace, l)
    case Paused => trace != [] && Idle(trace[|trace| - 1]) && l == trace[|trace| - 1].after
  }

  ghost predicate Stands(stage: Stage, p: Plan, graph: FlowGraph, maxSize: nat, ticks: seq<Tick>, trace: seq<Look>,
                         l: Loop) {
    && IsTrace(p, graph, maxSize, ticks, trace) && At(stage, p, trace, l)
    && (stage.Submitted? ==> |trace| < |ticks| && NewRound(p, graph, maxSize, ticks[|trace|], trace, l))
  }

  /** The polls of the trace have been made; `stage` says which part of the loop goes on from `l`. */
  ghost predicate InRun(stage: Stage, p: Plan, graph: FlowGraph, maxSize: nat, ticks: seq<Tick>, trace: seq<Look>,
                        l: Loop) {
    forall at: Stage :: at == stage ==> Stands(at, p, graph, maxSize, ticks, trace, l)
  }

  lemma RunStarts(p: Plan, graph: FlowGraph, maxSize: nat, ticks: seq<Tick>)
    ensures InRun(Between, p, graph, maxSize, ticks, [], FirstLoop(p))
  {
  }

  lemma RunMayResume(p: Plan, graph: FlowGraph, maxSize: nat, ticks: seq<Tick>, trace: seq<Look>, l: Loop)
    requires InRun(Between, p, graph, maxSize, ticks, trace, l)
    ensures Resumes(p, trace, l)
  {
    assert Stands(Between, p, graph, maxSize, ticks, trace, l);
  }

  lemma RunGoesOn(p: Plan, graph: FlowGraph, maxSize: nat, ticks: seq<Tick>, trace: seq<Look>, l: Loop, l': Loop)
    requires InRun(Between, p, graph, maxSize, ticks, trace, l) && |trace| < |ticks|
    requires NewRound(p, graph, maxSize, ticks[|trace|], trace, l')
    ensures InRun(Submitted, p, graph, maxSize, ticks, trace, l')
  {
    assert Stands(Between, p, graph, maxSize, ticks, trace, l);
  }

  lemma RunSubmits(p: Plan, graph: FlowGraph, maxSize: nat, ticks: seq<Tick>, trace: seq<Look>, l: Loop, l': Loop)
    requires InRun(Between, p, graph, maxSize, ticks, trace, l) && |trace| < |ticks|
    requires ticks[|trace|].running <= maxSize
    requires Dispatched(graph, maxSize - ticks[|trace|].running, l, l')
    ensures InRun(Submitted, p, graph, maxSize, ticks, trace, l')
  {
    RunMayResume(p, graph, maxSize, ticks, trace, l);
    ResumedStartsRound(p, graph, maxSize, ticks[|trace|], trace, l, l');
    RunGoesOn(p, graph, maxSize, ticks, trace, l, l');
  }

  lemma RunPolls(stage: Stage, p: Plan, graph: FlowGraph, maxSize: nat, ticks: seq<Tick>, trace: seq<Look>, l: Loop,
                 l': Loop)
    requires InRun(stage, p, graph, maxSize, ticks, trace, l) && (stage.Submitted? || stage.Collecting?)
    requires |trace| < |ticks| && PollStep(p, ticks[|trace|], l, l')
    ensures var look := Look(stage.Submitted?, l, l');
            InRun(if Idle(look) then Paused else Collecting, p, graph, maxSize, ticks, trace + [look], l')
  {
    var look := Look(stage.Submitted?, l, l');
    assert Stands(stage, p, graph, maxSize, ticks, trace, l);
    MoreTrace(p, graph, maxSize, ticks, trace, look);
    var next := if Idle(look) then Paused else Collecting;
    assert Stands(next, p, graph, maxSize, ticks, trace + [look], l');
  }

  lemma RunResumes(p: Plan, graph: FlowGraph, maxSize: nat, ticks: seq<Tick>, trace: seq<Look>, l: Loop, l': Loop)
    requires InRun(Paused, p, graph, maxSize, ticks, trace, l) && MayAdvance(l, l')
    ensures InRun(Between, p, graph, maxSize, ticks, trace, l')
  {
    assert Stands(Paused, p, graph, maxSize, ticks, trace, l);
    assert Stands(Between, p, graph, maxSize, ticks, trace, l');
  }

  /** The jobs and the pool after the polls of a trace. */
  function SysAfter(p: Plan, trace: seq<Look>): Sys {
    if trace == [] then Initial(p) else trace[|trace| - 1].after.sys
  }

  lemma RunIsTrace(stage: Stage, p: Plan, graph: FlowGraph, maxSize: nat, ticks: seq<Tick>, trace: seq<Look>, l: Loop)
    requires InRun(stage, p, graph, maxSize, ticks, trace, l)
    ensures IsTrace(p, graph, maxSize, ticks, trace) && (!stage.Submitted? ==> l.sys == SysAfter(p, trace))
  {
    assert Stands(stage, p, graph, maxSize, ticks, trace, l);
  }

  /** An execution that runs out of ticks is unfinished if it has just completed a job or jobs remain. */
  lemma RunIsUnfinished(stage: Stage, p: Plan, graph: FlowGraph, maxSize: nat, ticks: seq<Tick>, trace: seq<Look>,
                        l: Loop)
    requires InRun(stage, p, graph, maxSize, ticks, trace, l) && |trace| == |ticks|
    requires stage.Collecting? || (stage.Between? && l.spec.Remaining() != {})
    ensures Unfinished(p, ticks, trace)
  {
    assert Stands(stage, p, graph, maxSize, ticks, trace, l);
    assert DepsOf(p.jobs).Keys == p.jobs.Keys;
  }

  // ---------------------------------------------------------------------------------------------
  // A pool that eventually completes something
  // ---------------------------------------------------------------------------------------------

  /** No `k` polls in a row pass without one that can see the completion of a job in flight at the time. */
  ghost predicate Responsive(p: Plan, ticks: seq<Tick>, trace: seq<Look>, k: nat)
    requires |trace| <= |ticks|
  {
    forall i: nat :: i + k <= |trace| ==> SeenWithin(p, ticks, trace, i, k)
  }

  ghost predicate SeenWithin(p: Plan, ticks: seq<Tick>, trace: seq<Look>, i: nat, k: nat)
    requires i + k <= |trace| <= |ticks|
  {
    exists m :: i <= m < i + k && SomethingVisible(p, ticks[m], trace[m].before)
  }

  lemma {:induction false} SightingsGrow(p: Plan, ticks: seq<Tick>, trace: seq<Look>, i: nat, n: nat)
    requires i <= n <= |trace| <= |ticks|
    ensures Sightings(p, ticks, trace, i) <= Sightings(p, ticks, trace, n)
    ensures forall m :: i <= m < n && SomethingVisible(p, ticks[m], trace[m].before) ==>
              Sightings(p, ticks, trace, i) < Sightings(p, ticks, trace, n)
  {
    if i < n {
      SightingsGrow(p, ticks, trace, i, n - 1);
    }
  }

  lemma {:induction false} OneSightingPerWindow(p: Plan, ticks: seq<Tick>, trace: seq<Look>, k: nat, q: nat)
    requires |trace| <= |ticks| && Responsive(p, ticks, trace, k) && k * q <= |trace|
    ensures Sightings(p, ticks, trace, k * q) >= q
  {
    if q > 0 {
      assert k * q == k * (q - 1) + k;
      OneSightingPerWindow(p, ticks, trace, k, q - 1);
      assert SeenWithin(p, ticks, trace, k * (q - 1), k);
      SightingsGrow(p, ticks, trace, k * (q - 1), k * q);
    }
  }

  lemma ManySightings(p: Plan, ticks: seq<Tick>, trace: seq<Look>, k: nat, q: nat)
    requires |trace| <= |ticks| && Responsive(p, ticks, trace, k) && k * q <= |trace|
    ensures Sightings(p, ticks, trace, |trace|) >= q
  {
    OneSightingPerWindow(p, ticks, trace, k, q);
    SightingsGrow(p, ticks, trace, k * q, |trace|);
  }

  /** A pool that, whatever is in flight, completes one job visibly within every `k` polls lets no execution go
      on for `k` polls more than `k` for every job. */
  lemma ResponsivePoolsFinish(p: Plan, rank: map<JobId, nat>, graph: FlowGraph, maxSize: nat, ticks: seq<Tick>,
                              trace: seq<Look>, k: nat)
    requires WellWired(p) && Evaluable(p, rank) && IsTrace(p, graph, maxSize, ticks, trace)
    requires Responsive(p, ticks, trace, k) && |ticks| >= k * (|p.jobs| + 1)
    ensures !Unfinished(p, ticks, trace)
  {
    if Unfinished(p, ticks, trace) {
      UnfinishedIsShort(p, rank, graph, maxSize, ticks, trace);
      ManySightings(p, ticks, trace, k, |p.jobs| + 1);
    }
  }

  // ---------------------------------------------------------------------------------------------
  // A pool that completes all it is given between polls
  // ---------------------------------------------------------------------------------------------

  /** A pool that can accept work, completes what it is given, and lets the scheduler see it. */
  ghost predicate Fair(p: Plan, maxSize: nat, tick: Tick) {
    tick.running < maxSize && Productive(p, tick)
  }

  ghost function FairCount(p: Plan, maxSize: nat, ticks: seq<Tick>, n: nat): nat
    requires n <= |ticks|
  {
    if n == 0 then 0 else FairCount(p, maxSize, ticks, n - 1) + if Fair(p, maxSize, ticks[n - 1]) then 1 else 0
  }

  /** A fair tick is no stall. */
  ghost predicate FairIsNoStall(p: Plan, maxSize: nat, ticks: seq<Tick>, trace: seq<Look>, i: nat)
    requires i < |trace| <= |ticks|
  {
    Fair(p, maxSize, ticks[i]) ==> !Stalled(p, ticks[i], trace[i])
  }

  lemma FairPollDoesNotStall(p: Plan, rank: map<JobId, nat>, graph: FlowGraph, maxSize: nat, ticks: seq<Tick>,
                             trace: seq<Look>, i: nat)
    requires WellWired(p) && Evaluable(p, rank) && IsTrace(p, graph, maxSize, ticks, trace) && i < |trace|
    ensures FairIsNoStall(p, maxSize, ticks, trace, i)
  {
    var tick, before := ticks[i], trace[i].before;
    TraceIsCoherent(p, rank, graph, maxSize, ticks, trace, i);
    ProductiveMakesVisible(p, rank, graph, before, tick);
    if Fair(p, maxSize, tick) && trace[i].first {
      var j :| j in before.flight;
      assert Visible(AfterWork(p, before, tick).sys.progress, tick.seen, j);
    }
  }

  lemma {:induction false} FairOrStalled(p: Plan, maxSize: nat, ticks: seq<Tick>, trace: seq<Look>, n: nat)
    requires n <= |trace| <= |ticks| && forall i :: 0 <= i < n ==> FairIsNoStall(p, maxSize, ticks, trace, i)
    ensures FairCount(p, maxSize, ticks, n) + Stalls(p, ticks, trace, n) <= n
  {
    if n > 0 {
      FairOrStalled(p, maxSize, ticks, trace, n - 1);
      assert FairIsNoStall(p, maxSize, ticks, trace, n - 1);
    }
  }

  lemma FairPollsDoNotStall(p: Plan, rank: map<JobId, nat>, graph: FlowGraph, maxSize: nat, ticks: seq<Tick>,
                            trace: seq<Look>)
    requires WellWired(p) && Evaluable(p, rank) && IsTrace(p, graph, maxSize, ticks, trace)
    ensures FairCount(p, maxSize, ticks, |trace|) + Stalls(p, ticks, trace, |trace|) <= |trace|
  {
    forall i | 0 <= i < |trace| ensures FairIsNoStall(p, maxSize, ticks, trace, i) {
      FairPollDoesNotStall(p, rank, graph, maxSize, ticks, trace, i);
    }
    FairOrStalled(p, maxSize, ticks, trace, |trace|);
  }
}
