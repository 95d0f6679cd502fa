/**
  Where each job is while a flow executes: not handed out, waiting in the heap, submitted, or finished.
  The facts the execution loop of src/backend/flow_backend.rs keeps about it, one change at a time.
 */
module Scheduling {
  import opened Graphs
  import opened Promises
  import opened Jobs
  import opened Engine
  import opened Working
  import opened Orderings
  import opened Dispatch
  import opened Sequences

  type Results = SetState<JobId, (JobId, Outcome)>

  /** What the pool does before one poll of the promises: what a scan for running workers returns, the
      steps the workers take, and the jobs whose completion the scheduler sees. */
  datatype Tick = Tick(running: nat, work: seq<Event>, seen: set<JobId>)

  function OpenIds(open: seq<Weighted>): (ids: seq<JobId>)
    ensures |ids| == |open|
  {
    seq(|open|, i requires 0 <= i < |open| => open[i].job)
  }

  /** A result that the pool has delivered. */
  predicate Recorded(pr: Progresses, result: (JobId, Outcome)) {
    result.0 in pr && pr[result.0] == Completed(result.1) && (result.1.Done? || result.1.Failed?)
  }

  /** The promise set holds each submitted job once, as a promise or as a result. */
  ghost predicate Holds(st: Results, flight: set<JobId>, pr: Progresses) {
    && multiset(st.promises) + multiset(Names(st.finished)) == multiset(flight)
    && forall i :: 0 <= i < |st.finished| ==> Recorded(pr, st.finished[i])
  }

  predicate InPhase(pr: Progresses, finished: set<JobId>, flight: set<JobId>, j: JobId) {
    && j in pr
    && if j in flight then Running(pr[j]) || pr[j].Completed?
       else if j in finished then IsCollected(pr, j)
       else pr[j].Waiting?
  }

  ghost predicate Phases(p: Plan, finished: set<JobId>, flight: set<JobId>, pr: Progresses) {
    forall j :: j in p.jobs ==> InPhase(pr, finished, flight, j)
  }

  /** Every job is exactly one of: not handed out, waiting, submitted, finished. */
  ghost predicate Partition(p: Plan, spec: ReadySet, waiting: set<JobId>, flight: set<JobId>, tasks: map<JobId, Job>) {
    && spec.Legal() && spec.deps == DepsOf(p.jobs)
    && spec.inFlight == waiting + flight && waiting !! flight
    && tasks == p.jobs - (spec.finished + flight)
  }

  /** `unsent`: taken from the heap and about to be submitted. */
  ghost predicate HeapHolds(open: seq<Weighted>, unsent: seq<JobId>, waiting: set<JobId>) {
    multiset(OpenIds(open)) + multiset(unsent) == multiset(waiting)
  }

  /** The weight a ready job enters the heap with. */
  ghost predicate HeapWeights(open: seq<Weighted>, graph: FlowGraph) {
    forall i :: 0 <= i < |open| ==>
      open[i].dependents == |graph.Dependents(open[i].job)| + 1 && 0 < open[i].step <= MAX_USIZE
  }

  // ---------------------------------------------------------------------------------------------
  // Sequences without repetition as sets
  // ---------------------------------------------------------------------------------------------

  lemma Cancel<T>(a: multiset<T>, b: multiset<T>, x: T)
    requires a + multiset{x} == b + multiset{x}
    ensures a == b
  {
    forall e ensures a[e] == b[e] {
      assert (a + multiset{x})[e] == (b + multiset{x})[e];
    }
  }

  lemma UnionAsMultiset<T>(a: set<T>, b: set<T>)
    requires a !! b
    ensures multiset(a + b) == multiset(a) + multiset(b)
  {
  }

  lemma RemoveAsMultiset<T>(a: set<T>, x: T)
    requires x in a
    ensures multiset(a) == multiset(a - {x}) + multiset{x}
  {
    UnionAsMultiset(a - {x}, {x});
    assert (a - {x}) + {x} == a;
    assert multiset({x}) == multiset{x};
  }

  lemma {:induction false} DistinctAsSet(s: seq<JobId>)
    requires Distinct(s)
    ensures multiset(s) == multiset(set j | j in s)
  {
    if s != [] {
      var rest, last := s[..|s| - 1], s[|s| - 1];
      DistinctAsSet(rest);
      assert s == rest + [last];
      assert last !in rest;
      assert (set j | j in s) == (set j | j in rest) + {last};
    }
  }

  lemma IdsWithout(open: seq<Weighted>, k: nat)
    requires k < |open|
    ensures multiset(open) == multiset(open[..k] + open[k + 1..]) + multiset{open[k]}
    ensures multiset(OpenIds(open)) == multiset(OpenIds(open[..k] + open[k + 1..])) + multiset{open[k].job}
  {
    assert open == open[..k] + [open[k]] + open[k + 1..];
    assert OpenIds(open) == OpenIds(open[..k]) + [open[k].job] + OpenIds(open[k + 1..]);
    assert OpenIds(open[..k] + open[k + 1..]) == OpenIds(open[..k]) + OpenIds(open[k + 1..]);
  }

  lemma {:induction false} SameIds(a: seq<Weighted>, b: seq<Weighted>)
    requires multiset(a) == multiset(b)
    ensures multiset(OpenIds(a)) == multiset(OpenIds(b))
    decreases |a|
  {
    if a == [] {
      assert |multiset(a)| == |multiset(b)|;
    } else {
      var first := a[0];
      assert first in multiset(b);
      var k :| 0 <= k < |b| && b[k] == first;
      IdsWithout(a, 0);
      IdsWithout(b, k);
      var restA, restB := a[..0] + a[1..], b[..k] + b[k + 1..];
      Cancel(multiset(restA), multiset(restB), first);
      SameIds(restA, restB);
    }
  }

  lemma SplitIds(open: seq<Weighted>, batch: seq<Weighted>, rest: seq<Weighted>)
    requires multiset(open) == multiset(batch) + multiset(rest)
    ensures multiset(OpenIds(open)) == multiset(OpenIds(batch)) + multiset(OpenIds(rest))
  {
    assert multiset(batch + rest) == multiset(open);
    SameIds(open, batch + rest);
    assert OpenIds(batch + rest) == OpenIds(batch) + OpenIds(rest);
  }

  lemma WeightsStay(open: seq<Weighted>, part: seq<Weighted>, graph: FlowGraph)
    requires HeapWeights(open, graph) && multiset(part) <= multiset(open)
    ensures HeapWeights(part, graph)
  {
    forall i | 0 <= i < |part|
      ensures part[i].dependents == |graph.Dependents(part[i].job)| + 1 && 0 < part[i].step <= MAX_USIZE
    {
      MembersStay(open, part, i);
    }
  }

  // ---------------------------------------------------------------------------------------------
  // Handing out
  // ---------------------------------------------------------------------------------------------

  lemma PollKeepsPartition(p: Plan, spec: ReadySet, waiting: set<JobId>, flight: set<JobId>, tasks: map<JobId, Job>,
                           out: seq<JobId>)
    requires Partition(p, spec, waiting, flight, tasks) && spec.MayPoll(out) && spec.AfterPoll(out).Legal()
    ensures Partition(p, spec.AfterPoll(out), waiting + (set j | j in out), flight, tasks)
    ensures waiting !! set j | j in out
  {
    forall j | j in out ensures j !in waiting + flight {
      assert j in spec.Ready();
    }
  }

  lemma PushKeepsHeap(open: seq<Weighted>, waiting: set<JobId>, out: seq<JobId>, open': seq<Weighted>)
    requires HeapHolds(open, [], waiting) && Distinct(out) && waiting !! (set j | j in out)
    requires OpenIds(open') == OpenIds(open) + out
    ensures HeapHolds(open', [], waiting + (set j | j in out))
  {
    DistinctAsSet(out);
    UnionAsMultiset(waiting, set j | j in out);
    assert multiset(OpenIds(open')) == multiset(OpenIds(open)) + multiset(out);
  }

  /** While jobs remain, one of them is waiting in the heap or submitted after every poll of the ordering. */
  lemma SomethingToDo(spec: ReadySet, waiting: set<JobId>, flight: set<JobId>, out: seq<JobId>, open: seq<Weighted>)
    requires spec.MayPoll(out) && spec.inFlight == waiting + flight && spec.Remaining() != {}
    requires HeapHolds(open, [], waiting + (set j | j in out))
    ensures open != [] || flight != {}
  {
    var all := waiting + set j | j in out;
    if flight == {} {
      if waiting == {} {
        assert spec.inFlight == {};
        assert out[0] in all;
      }
      var j :| j in all;
      assert j in multiset(all);
      assert multiset(OpenIds(open)) + multiset([]) == multiset(all);
      assert multiset(OpenIds(open)) == multiset(all);
    }
  }

  // ---------------------------------------------------------------------------------------------
  // Submitting
  // ---------------------------------------------------------------------------------------------

  /** A waiting job is still in the map `tasks`, and everything it depends on has been collected. */
  lemma WaitingCanBeDispatched(p: Plan, spec: ReadySet, waiting: set<JobId>, flight: set<JobId>, tasks: map<JobId, Job>,
                               s: Sys, j: JobId)
    requires Partition(p, spec, waiting, flight, tasks) && Phases(p, spec.finished, flight, s.progress)
    requires j in waiting
    ensures j in tasks && j in p.jobs && tasks[j] == p.jobs[j]
    ensures Engine.Enabled(p, s, Event.Dispatch(j))
  {
    assert j in spec.inFlight;
    assert j in spec.deps && j !in spec.finished && j !in flight;
    assert InPhase(s.progress, spec.finished, flight, j);
    assert spec.deps[j] <= spec.finished;
    forall d | d in p.jobs[j].deps ensures IsCollected(s.progress, d) {
      assert d in spec.finished && d in spec.deps;
      assert d !in spec.inFlight;
      assert InPhase(s.progress, spec.finished, flight, d);
    }
  }

  lemma SubmitKeepsPartition(p: Plan, spec: ReadySet, waiting: set<JobId>, flight: set<JobId>, tasks: map<JobId, Job>,
                             j: JobId)
    requires Partition(p, spec, waiting, flight, tasks) && j in waiting
    ensures Partition(p, spec, waiting - {j}, flight + {j}, tasks - {j})
  {
    assert spec.finished + (flight + {j}) == (spec.finished + flight) + {j};
  }

  lemma SubmitKeepsPhases(p: Plan, finished: set<JobId>, flight: set<JobId>, pr: Progresses, j: JobId)
    requires Phases(p, finished, flight, pr)
    ensures Phases(p, finished, flight + {j}, pr[j := Queued])
  {
    forall k | k in p.jobs ensures InPhase(pr[j := Queued], finished, flight + {j}, k) {
      assert InPhase(pr, finished, flight, k);
    }
  }

  lemma SubmitKeepsHolds(st: Results, flight: set<JobId>, pr: Progresses, j: JobId)
    requires Holds(st, flight, pr) && j !in flight && j in pr && pr[j].Waiting?
    ensures Holds(st.Insert(j), flight + {j}, pr[j := Queued])
  {
    UnionAsMultiset(flight, {j});
    assert multiset(st.promises + [j]) == multiset(st.promises) + multiset({j});
    forall i | 0 <= i < |st.finished| ensures Recorded(pr[j := Queued], st.finished[i]) {
      assert Recorded(pr, st.finished[i]);
    }
  }

  lemma SubmitKeepsHeap(open: seq<Weighted>, unsent: seq<JobId>, waiting: set<JobId>)
    requires HeapHolds(open, unsent, waiting) && unsent != []
    ensures unsent[0] in waiting && HeapHolds(open, unsent[1..], waiting - {unsent[0]})
  {
    assert unsent == [unsent[0]] + unsent[1..];
    assert unsent[0] in multiset(unsent);
    assert unsent[0] in multiset(waiting);
    RemoveAsMultiset(waiting, unsent[0]);
    var before := multiset(OpenIds(open)) + multiset(unsent[1..]);
    assert before + multiset{unsent[0]} == multiset(waiting);
    Cancel(before, multiset(waiting - {unsent[0]}), unsent[0]);
  }

  // ---------------------------------------------------------------------------------------------
  // The pool at work
  // ---------------------------------------------------------------------------------------------

  lemma WorkKeepsPhases(p: Plan, finished: set<JobId>, flight: set<JobId>, s: Sys, work: seq<Event>)
    requires WellWired(p) && Shaped(p, s) && Phases(p, finished, flight, s.progress)
    ensures Phases(p, finished, flight, Works(p, s, work).progress)
  {
    var s' := Works(p, s, work);
    forall j | j in p.jobs ensures InPhase(s'.progress, finished, flight, j) {
      assert InPhase(s.progress, finished, flight, j);
      WorksMoves(p, s, work, j);
    }
  }

  lemma WorkKeepsHolds(p: Plan, st: Results, flight: set<JobId>, s: Sys, work: seq<Event>)
    requires WellWired(p) && Shaped(p, s) && Holds(st, flight, s.progress)
    ensures Holds(st, flight, Works(p, s, work).progress)
  {
    forall i | 0 <= i < |st.finished| ensures Recorded(Works(p, s, work).progress, st.finished[i]) {
      assert Recorded(s.progress, st.finished[i]);
      WorksMoves(p, s, work, st.finished[i].0);
    }
  }

  // ---------------------------------------------------------------------------------------------
  // Polling the promises of submitted jobs
  // ---------------------------------------------------------------------------------------------

  /** The job has completed, and its completion is visible to the scheduler. */
  predicate Visible(pr: Progresses, seen: set<JobId>, j: JobId) {
    j in seen && j in pr && pr[j].Completed?
  }

  predicate CrashVisible(pr: Progresses, seen: set<JobId>, j: JobId) {
    Visible(pr, seen, j) && pr[j].outcome.Crashed?
  }

  function Answers(promises: seq<JobId>, pr: Progresses, seen: set<JobId>): (answers: seq<Poll<(JobId, Outcome)>>)
    ensures |answers| == |promises|
  {
    seq(|promises|, i requires 0 <= i < |promises| =>
      if Visible(pr, seen, promises[i]) then Ready((promises[i], pr[promises[i]].outcome)) else Pending)
  }

  lemma {:induction false} ValuesAreResolved(promises: seq<JobId>, pr: Progresses, seen: set<JobId>)
    ensures Names(Values(Answers(promises, pr, seen))) == Resolved(promises, Answers(promises, pr, seen))
    ensures forall x :: x in Values(Answers(promises, pr, seen)) ==>
                          x.0 in promises && x.0 in pr && pr[x.0] == Completed(x.1)
  {
    if promises != [] {
      ValuesAreResolved(promises[1..], pr, seen);
      assert Answers(promises, pr, seen)[1..] == Answers(promises[1..], pr, seen);
    }
  }

  lemma AbsorbCounts(st: Results, pr: Progresses, seen: set<JobId>)
    ensures var t := st.Absorb(Answers(st.promises, pr, seen));
            multiset(t.promises) + multiset(Names(t.finished)) == multiset(st.promises) + multiset(Names(st.finished))
  {
    var answers := Answers(st.promises, pr, seen);
    ResolvedSplits(st.promises, answers);
    ValuesAreResolved(st.promises, pr, seen);
    assert Names(st.finished + Values(answers)) == Names(st.finished) + Names(Values(answers));
    Exchange(multiset(st.promises), multiset(Resolved(st.promises, answers)),
             multiset(Unresolved(st.promises, answers)),
             multiset(Names(st.finished)));
  }

  lemma Exchange<T>(all: multiset<T>, gone: multiset<T>, left: multiset<T>, other: multiset<T>)
    requires all == gone + left
    ensures left + (other + gone) == all + other
  {
  }

  lemma AbsorbKeepsHolds(st: Results, flight: set<JobId>, pr: Progresses, seen: set<JobId>)
    requires Holds(st, flight, pr)
    requires forall j :: j in st.promises && Visible(pr, seen, j) ==> pr[j].outcome.Done? || pr[j].outcome.Failed?
    ensures Holds(st.Absorb(Answers(st.promises, pr, seen)), flight, pr)
  {
    var answers := Answers(st.promises, pr, seen);
    var t := st.Absorb(answers);
    AbsorbCounts(st, pr, seen);
    forall i | 0 <= i < |t.finished| ensures Recorded(pr, t.finished[i]) {
      if i < |st.finished| {
        assert t.finished[i] == st.finished[i];
      } else {
        assert t.finished[i] == Values(answers)[i - |st.finished|];
        NewResultRecorded(st.promises, pr, seen, i - |st.finished|);
      }
    }
  }

  lemma NewResultRecorded(promises: seq<JobId>, pr: Progresses, seen: set<JobId>, i: nat)
    requires forall j :: j in promises && Visible(pr, seen, j) ==> pr[j].outcome.Done? || pr[j].outcome.Failed?
    requires i < |Values(Answers(promises, pr, seen))|
    ensures Recorded(pr, Values(Answers(promises, pr, seen))[i])
  {
    ValuesAreResolved(promises, pr, seen);
    VisibleValues(promises, pr, seen);
    assert Values(Answers(promises, pr, seen))[i] in Values(Answers(promises, pr, seen));
  }

  lemma {:induction false} VisibleValues(promises: seq<JobId>, pr: Progresses, seen: set<JobId>)
    ensures forall x :: x in Values(Answers(promises, pr, seen)) ==> Visible(pr, seen, x.0)
  {
    if promises != [] {
      VisibleValues(promises[1..], pr, seen);
      assert Answers(promises, pr, seen)[1..] == Answers(promises[1..], pr, seen);
    }
  }

  lemma FirstIsInFlight(st: Results, flight: set<JobId>, pr: Progresses)
    requires Holds(st, flight, pr) && st.finished != []
    ensures st.finished[0].0 in flight && Recorded(pr, st.finished[0])
  {
    assert Names(st.finished)[0] == st.finished[0].0;
    assert st.finished[0].0 in multiset(Names(st.finished));
    assert st.finished[0].0 in multiset(flight);
  }

  lemma TakeFirstCounts(st: Results, flight: set<JobId>, pr: Progresses)
    requires Holds(st, flight, pr) && st.finished != []
    ensures multiset(st.promises) + multiset(Names(SwapRemoveFirst(st.finished))) ==
            multiset(flight - {st.finished[0].0})
  {
    FirstIsInFlight(st, flight, pr);
    var j, rest := st.finished[0].0, SwapRemoveFirst(st.finished);
    NamesRemoveFirst(st.finished);
    RemoveAsMultiset(flight, j);
    var left := multiset(st.promises) + multiset(Names(rest));
    assert left + multiset{j} == multiset(flight);
    Cancel(left, multiset(flight - {j}), j);
  }

  lemma TakeFirstKeepsHolds(st: Results, flight: set<JobId>, pr: Progresses, next: Progress)
    requires Holds(st, flight, pr) && st.finished != []
    ensures Holds(st.(finished := SwapRemoveFirst(st.finished)), flight - {st.finished[0].0},
                  pr[st.finished[0].0 := next])
  {
    var j, rest := st.finished[0].0, SwapRemoveFirst(st.finished);
    TakeFirstCounts(st, flight, pr);
    NamesRemoveFirst(st.finished);
    forall i | 0 <= i < |rest| ensures Recorded(pr[j := next], rest[i]) {
      assert Names(rest)[i] == rest[i].0;
      assert rest[i].0 in multiset(Names(rest));
      assert rest[i].0 in multiset(flight - {j});
      assert rest[i] in st.finished;
    }
  }

  lemma NamesRemoveFirst(results: seq<(JobId, Outcome)>)
    requires results != []
    ensures multiset(Names(results)) == multiset(Names(SwapRemoveFirst(results))) + multiset{results[0].0}
    ensures forall x :: x in SwapRemoveFirst(results) ==> x in results
  {
    assert Names(SwapRemoveFirst(results)) == SwapRemoveFirst(Names(results));
    SwapRemoveKeepsRest(Names(results));
  }

  lemma OfferKeepsPartition(p: Plan, spec: ReadySet, waiting: set<JobId>, flight: set<JobId>, tasks: map<JobId, Job>,
                            j: JobId)
    requires Partition(p, spec, waiting, flight, tasks) && j in flight && spec.AfterOffer(j).Legal()
    ensures Partition(p, spec.AfterOffer(j), waiting, flight - {j}, tasks)
  {
    assert (spec.finished + {j}) + (flight - {j}) == spec.finished + flight;
  }

  lemma OfferKeepsPhases(p: Plan, finished: set<JobId>, flight: set<JobId>, pr: Progresses, j: JobId, v: Data)
    requires Phases(p, finished, flight, pr) && j in flight
    ensures Phases(p, finished + {j}, flight - {j}, pr[j := Collected(Done(v))])
  {
    forall k | k in p.jobs ensures InPhase(pr[j := Collected(Done(v))], finished + {j}, flight - {j}, k) {
      assert InPhase(pr, finished, flight, k);
    }
  }

  /** Once a submitted job has completed visibly, a poll returns a result. */
  lemma VisibleIsReturned(st: Results, flight: set<JobId>, pr: Progresses, seen: set<JobId>, j: JobId)
    requires Holds(st, flight, pr) && j in flight && Visible(pr, seen, j)
    ensures st.Absorb(Answers(st.promises, pr, seen)).finished != []
  {
    if st.finished == [] {
      assert j in multiset(flight);
      assert j in multiset(st.promises);
      var i :| 0 <= i < |st.promises| && st.promises[i] == j;
      assert Answers(st.promises, pr, seen)[i].Ready?;
      ReadyGivesValue(Answers(st.promises, pr, seen), i);
    }
  }

  lemma {:induction false} ReadyGivesValue<T>(answers: seq<Poll<T>>, i: nat)
    requires i < |answers| && answers[i].Ready?
    ensures Values(answers) != []
  {
    if i > 0 {
      ReadyGivesValue(answers[1..], i - 1);
    }
  }

  /** What the invariant of the running system says about a completed job. */
  lemma CompletedOutcome(p: Plan, rank: map<JobId, nat>, s: Sys, j: JobId)
    requires WellWired(p) && Evaluable(p, rank) && Inv(p, rank, s) && j in p.jobs && s.progress[j].Completed?
    ensures s.progress[j].outcome == Eval(p, rank, j) && !s.progress[j].outcome.Blocked?
    ensures forall d :: d in p.jobs[j].deps ==> CollectedAsEvaluated(p, rank, s.progress, d)
  {
    assert AllCollected(p, s.progress, j);
    EvalFromCollected(p, rank, s.progress, j);
    forall d | d in p.jobs[j].deps ensures CollectedAsEvaluated(p, rank, s.progress, d) {
      assert IsCollected(s.progress, d);
    }
  }

  /** When the ordering is empty, every job has been collected with the value it evaluates to. */
  lemma NothingRemains(p: Plan, rank: map<JobId, nat>, s: Sys, spec: ReadySet, waiting: set<JobId>, flight: set<JobId>,
                       tasks: map<JobId, Job>, j: JobId)
    requires Evaluable(p, rank) && Inv(p, rank, s)
    requires Partition(p, spec, waiting, flight, tasks) && Phases(p, spec.finished, flight, s.progress)
    requires spec.Remaining() == {} && j in p.jobs
    ensures CollectedAsEvaluated(p, rank, s.progress, j)
  {
    assert j in spec.deps;
    assert j in spec.finished by {
      assert j !in spec.Remaining();
    }
    assert InPhase(s.progress, spec.finished, flight, j);
  }

  // ---------------------------------------------------------------------------------------------
  // The loop's whole state, and its changes
  // ---------------------------------------------------------------------------------------------

  datatype Loop = Loop(
    tasks: map<JobId, Job>, open: seq<Weighted>, step: nat, sys: Sys, results: Results,
    tasksRunning: int, tasksCompleted: int, spec: ReadySet, waiting: set<JobId>, flight: set<JobId>)

  /** What is kept about the loop: the running system, the heap, where each job is, the counters, and
      what the promise set holds. */
  datatype Aspect = System | Heap | Lifecycle | Counters | Delivery

  ghost predicate Kept(a: Aspect, p: Plan, rank: map<JobId, nat>, graph: FlowGraph, l: Loop, unsent: seq<JobId>) {
    match a
    case System => WellWired(p) && Evaluable(p, rank) && Inv(p, rank, l.sys)
    case Heap => 0 < l.step <= MAX_USIZE && HeapWeights(l.open, graph) && HeapHolds(l.open, unsent, l.waiting)
    case Lifecycle =>
      Partition(p, l.spec, l.waiting, l.flight, l.tasks) && Phases(p, l.spec.finished, l.flight, l.sys.progress)
    case Counters => l.tasksRunning == |l.flight| && l.tasksCompleted == |l.spec.finished|
    case Delivery => Holds(l.results, l.flight, l.sys.progress)
  }

  ghost predicate Coherent(p: Plan, rank: map<JobId, nat>, graph: FlowGraph, l: Loop, unsent: seq<JobId>) {
    forall a :: Kept(a, p, rank, graph, l, unsent)
  }

  lemma Aspects(p: Plan, rank: map<JobId, nat>, graph: FlowGraph, l: Loop, unsent: seq<JobId>)
    requires Coherent(p, rank, graph, l, unsent)
    ensures WellWired(p) && Evaluable(p, rank) && Inv(p, rank, l.sys)
    ensures 0 < l.step <= MAX_USIZE && HeapWeights(l.open, graph) && HeapHolds(l.open, unsent, l.waiting)
    ensures Partition(p, l.spec, l.waiting, l.flight, l.tasks) && Phases(p, l.spec.finished, l.flight, l.sys.progress)
    ensures l.tasksRunning == |l.flight| && l.tasksCompleted == |l.spec.finished|
    ensures Holds(l.results, l.flight, l.sys.progress)
  {
    assert Kept(Counters, p, rank, graph, l, unsent);
    assert Kept(System, p, rank, graph, l, unsent) && Kept(Heap, p, rank, graph, l, unsent);
    assert Kept(Lifecycle, p, rank, graph, l, unsent) && Kept(Delivery, p, rank, graph, l, unsent);
  }

  function FirstLoop(p: Plan): Loop {
    Loop(p.jobs, [], 1, Initial(p), SetState([], []), 0, 0, ReadySet(DepsOf(p.jobs), {}, {}), {}, {})
  }

  lemma FirstIsCoherent(p: Plan, rank: map<JobId, nat>, graph: FlowGraph)
    requires WellWired(p) && Evaluable(p, rank)
    ensures Coherent(p, rank, graph, FirstLoop(p), [])
  {
    InitialInv(p, rank);
    assert Phases(p, {}, {}, Initial(p).progress);
    var none: set<JobId> := {};
    assert HeapHolds([], [], none);
    assert Holds(SetState([], []), none, Initial(p).progress);
  }

  function AfterHandOut(l: Loop, out: seq<JobId>, pushed: seq<Weighted>): Loop {
    l.(open := pushed, spec := l.spec.AfterPoll(out), waiting := l.waiting + set j | j in out)
  }

  lemma HandOutKeepsCoherent(p: Plan, rank: map<JobId, nat>, graph: FlowGraph, l: Loop, out: seq<JobId>,
                             pushed: seq<Weighted>)
    requires Coherent(p, rank, graph, l, []) && l.spec.MayPoll(out) && l.spec.AfterPoll(out).Legal()
    requires OpenIds(pushed) == OpenIds(l.open) + out && HeapWeights(pushed, graph)
    ensures Coherent(p, rank, graph, AfterHandOut(l, out, pushed), [])
    ensures l.waiting !! (set j | j in out) && (set j | j in out) <= l.spec.Ready()
    ensures l.spec.Remaining() != {} ==> pushed != [] || l.flight != {}
  {
    Aspects(p, rank, graph, l, []);
    PollKeepsPartition(p, l.spec, l.waiting, l.flight, l.tasks, out);
    PushKeepsHeap(l.open, l.waiting, out, pushed);
    if l.spec.Remaining() != {} {
      SomethingToDo(l.spec, l.waiting, l.flight, out, pushed);
    }
  }

  lemma DrainKeepsCoherent(p: Plan, rank: map<JobId, nat>, graph: FlowGraph, l: Loop, batch: seq<Weighted>,
                           rest: seq<Weighted>)
    requires Coherent(p, rank, graph, l, []) && multiset(l.open) == multiset(batch) + multiset(rest)
    ensures Coherent(p, rank, graph, l.(open := rest), OpenIds(batch))
  {
    Aspects(p, rank, graph, l, []);
    WeightsStay(l.open, rest, graph);
    SplitIds(l.open, batch, rest);
  }

  function AfterSubmit(l: Loop, j: JobId): Loop {
    l.(tasks := l.tasks - {j}, sys := Move(l.sys, j, Queued), results := l.results.Insert(j),
       waiting := l.waiting - {j}, flight := l.flight + {j}, tasksRunning := l.tasksRunning + 1)
  }

  function AfterSubmits(l: Loop, jobs: seq<JobId>): Loop {
    if jobs == [] then l else AfterSubmit(AfterSubmits(l, jobs[..|jobs| - 1]), jobs[|jobs| - 1])
  }

  lemma SubmitsInTurn(l: Loop, jobs: seq<JobId>, i: nat)
    requires i < |jobs|
    ensures AfterSubmits(l, jobs[..i + 1]) == AfterSubmit(AfterSubmits(l, jobs[..i]), jobs[i])
  {
    assert jobs[..i + 1][..i] == jobs[..i];
  }

  lemma {:induction false} SubmitsKeepOpen(l: Loop, jobs: seq<JobId>)
    ensures AfterSubmits(l, jobs).open == l.open && AfterSubmits(l, jobs).spec == l.spec
    ensures AfterSubmits(l, jobs).tasksCompleted == l.tasksCompleted && AfterSubmits(l, jobs).step == l.step
  {
    if jobs != [] {
      SubmitsKeepOpen(l, jobs[..|jobs| - 1]);
    }
  }

  lemma {:induction false} SubmitsMoveToFlight(l: Loop, jobs: seq<JobId>)
    ensures var l' := AfterSubmits(l, jobs);
            && l'.flight == l.flight + (set j | j in jobs)
            && l'.waiting == l.waiting - (set j | j in jobs)
            && l'.tasks == l.tasks - (set j | j in jobs)
  {
    if jobs != [] {
      var rest, last := jobs[..|jobs| - 1], jobs[|jobs| - 1];
      SubmitsMoveToFlight(l, rest);
      assert jobs == rest + [last];
      assert (set j | j in jobs) == (set j | j in rest) + {last};
    }
  }

  /** The next unsent job is still in the map `tasks`, and may run. */
  lemma SubmitIsEnabled(p: Plan, rank: map<JobId, nat>, graph: FlowGraph, l: Loop, unsent: seq<JobId>)
    requires Coherent(p, rank, graph, l, unsent) && unsent != []
    ensures var j := unsent[0];
            && j in l.waiting && j !in l.flight && j in l.tasks && j in p.jobs && l.tasks[j] == p.jobs[j]
            && Engine.Enabled(p, l.sys, Event.Dispatch(j))
            && HeapHolds(l.open, unsent[1..], l.waiting - {j})
  {
    Aspects(p, rank, graph, l, unsent);
    SubmitKeepsHeap(l.open, unsent, l.waiting);
    WaitingCanBeDispatched(p, l.spec, l.waiting, l.flight, l.tasks, l.sys, unsent[0]);
  }

  lemma CountsAfter(s: set<JobId>, j: JobId)
    ensures j !in s ==> |s + {j}| == |s| + 1
    ensures j in s ==> |s - {j}| == |s| - 1
  {
  }

  lemma FromAspects(p: Plan, rank: map<JobId, nat>, graph: FlowGraph, l: Loop, unsent: seq<JobId>)
    requires WellWired(p) && Evaluable(p, rank) && Inv(p, rank, l.sys)
    requires 0 < l.step <= MAX_USIZE && HeapWeights(l.open, graph) && HeapHolds(l.open, unsent, l.waiting)
    requires Partition(p, l.spec, l.waiting, l.flight, l.tasks) && Phases(p, l.spec.finished, l.flight, l.sys.progress)
    requires l.tasksRunning == |l.flight| && l.tasksCompleted == |l.spec.finished|
    requires Holds(l.results, l.flight, l.sys.progress)
    ensures Coherent(p, rank, graph, l, unsent)
  {
    forall a ensures Kept(a, p, rank, graph, l, unsent) {
    }
  }

  lemma SubmitKeepsRunning(p: Plan, rank: map<JobId, nat>, graph: FlowGraph, l: Loop, unsent: seq<JobId>)
    requires Coherent(p, rank, graph, l, unsent) && unsent != []
    ensures var l' := AfterSubmit(l, unsent[0]);
            && WellWired(p) && Evaluable(p, rank) && Inv(p, rank, l'.sys)
            && Holds(l'.results, l'.flight, l'.sys.progress) && l'.tasksRunning == |l'.flight|
  {
    Aspects(p, rank, graph, l, unsent);
    SubmitIsEnabled(p, rank, graph, l, unsent);
    SubmitKeepsHolds(l.results, l.flight, l.sys.progress, unsent[0]);
    StepKeepsInv(p, rank, l.sys, Event.Dispatch(unsent[0]));
    CountsAfter(l.flight, unsent[0]);
  }

  lemma SubmitKeepsCoherent(p: Plan, rank: map<JobId, nat>, graph: FlowGraph, l: Loop, unsent: seq<JobId>)
    requires Coherent(p, rank, graph, l, unsent) && unsent != []
    ensures Coherent(p, rank, graph, AfterSubmit(l, unsent[0]), unsent[1..])
  {
    var j := unsent[0];
    Aspects(p, rank, graph, l, unsent);
    SubmitIsEnabled(p, rank, graph, l, unsent);
    SubmitKeepsRunning(p, rank, graph, l, unsent);
    SubmitKeepsPartition(p, l.spec, l.waiting, l.flight, l.tasks, j);
    SubmitKeepsPhases(p, l.spec.finished, l.flight, l.sys.progress, j);
    FromAspects(p, rank, graph, AfterSubmit(l, j), unsent[1..]);
  }

  lemma {:induction false} SubmitsKeepCoherent(p: Plan, rank: map<JobId, nat>, graph: FlowGraph, l: Loop,
                                               ids: seq<JobId>, i: nat)
    requires Coherent(p, rank, graph, l, ids) && i <= |ids|
    ensures Coherent(p, rank, graph, AfterSubmits(l, ids[..i]), ids[i..])
  {
    if i == 0 {
      assert ids[0..] == ids && ids[..0] == [];
    } else {
      SubmitsKeepCoherent(p, rank, graph, l, ids, i - 1);
      SubmitsInTurn(l, ids, i - 1);
      assert ids[i - 1..][0] == ids[i - 1] && ids[i - 1..][1..] == ids[i..];
      SubmitKeepsCoherent(p, rank, graph, AfterSubmits(l, ids[..i - 1]), ids[i - 1..]);
    }
  }

  /** When its turn comes, each job of a batch is still in the map `tasks`, and everything it depends on has
      been collected: it is submitted once, and only after its dependencies. */
  lemma SubmittedInTurn(p: Plan, rank: map<JobId, nat>, graph: FlowGraph, l: Loop, ids: seq<JobId>, i: nat)
    requires Coherent(p, rank, graph, l, ids) && i < |ids|
    ensures var l' := AfterSubmits(l, ids[..i]);
            && WellWired(p) && Shaped(p, l'.sys) && Engine.Enabled(p, l'.sys, Event.Dispatch(ids[i]))
            && ids[i] in l'.tasks && l'.tasks[ids[i]] == p.jobs[ids[i]]
            && AfterSubmit(l', ids[i]).sys == Do(p, l'.sys, Event.Dispatch(ids[i]))
  {
    SubmitsKeepCoherent(p, rank, graph, l, ids, i);
    Aspects(p, rank, graph, AfterSubmits(l, ids[..i]), ids[i..]);
    assert ids[i..][0] == ids[i];
    SubmitIsEnabled(p, rank, graph, AfterSubmits(l, ids[..i]), ids[i..]);
  }

  lemma AllSubmittedCoherent(p: Plan, rank: map<JobId, nat>, graph: FlowGraph, l: Loop, ids: seq<JobId>)
    requires Coherent(p, rank, graph, l, ids)
    ensures Coherent(p, rank, graph, AfterSubmits(l, ids), [])
  {
    SubmitsKeepCoherent(p, rank, graph, l, ids, |ids|);
    assert ids[..|ids|] == ids && ids[|ids|..] == [];
  }

  lemma WorkKeepsCoherent(p: Plan, rank: map<JobId, nat>, graph: FlowGraph, l: Loop, work: seq<Event>)
    requires Coherent(p, rank, graph, l, []) && WellWired(p) && Shaped(p, l.sys)
    ensures Coherent(p, rank, graph, l.(sys := Works(p, l.sys, work)), [])
  {
    Aspects(p, rank, graph, l, []);
    WorksKeepsInv(p, rank, l.sys, work);
    WorkKeepsPhases(p, l.spec.finished, l.flight, l.sys, work);
    WorkKeepsHolds(p, l.results, l.flight, l.sys, work);
  }

  /** Workers that complete all they are given, and a scheduler that sees it. */
  ghost predicate Productive(p: Plan, tick: Tick) {
    WellWired(p) && Completes(p, tick.work) && p.jobs.Keys <= tick.seen
  }

  lemma ProductiveMakesVisible(p: Plan, rank: map<JobId, nat>, graph: FlowGraph, l: Loop, tick: Tick)
    requires Coherent(p, rank, graph, l, [])
    ensures Shaped(p, l.sys)
    ensures Productive(p, tick) ==>
              forall j :: j in l.flight ==> Visible(Works(p, l.sys, tick.work).progress, tick.seen, j)
  {
    Aspects(p, rank, graph, l, []);
    if Productive(p, tick) {
      var pr := Works(p, l.sys, tick.work).progress;
      WorkKeepsPhases(p, l.spec.finished, l.flight, l.sys, tick.work);
      assert NoneRunning(pr, p.jobs.Keys);
      forall j | j in l.flight ensures Visible(pr, tick.seen, j) {
        assert j in l.spec.inFlight && j in l.spec.deps;
        assert InPhase(pr, l.spec.finished, l.flight, j);
      }
    }
  }

  /** The completed jobs among the submitted ones are as they evaluate. */
  lemma InFlightOutcome(p: Plan, rank: map<JobId, nat>, graph: FlowGraph, l: Loop, j: JobId)
    requires Coherent(p, rank, graph, l, []) && j in l.flight && j in l.sys.progress && l.sys.progress[j].Completed?
    ensures Evaluable(p, rank) && j in p.jobs
    ensures l.sys.progress[j].outcome == Eval(p, rank, j) && !Eval(p, rank, j).Blocked?
    ensures forall d :: d in p.jobs[j].deps ==> CollectedAsEvaluated(p, rank, l.sys.progress, d)
  {
    Aspects(p, rank, graph, l, []);
    CompletedOutcome(p, rank, l.sys, j);
  }

  lemma PromisesAreInFlight(st: Results, flight: set<JobId>, pr: Progresses, j: JobId)
    requires Holds(st, flight, pr) && j in st.promises
    ensures j in flight
  {
    assert j in multiset(st.promises);
    assert j in multiset(flight);
  }

  function AfterAsk(l: Loop, seen: set<JobId>): Loop {
    l.(results := l.results.Absorb(Answers(l.results.promises, l.sys.progress, seen)))
  }

  lemma AbsorbKeepsCoherent(p: Plan, rank: map<JobId, nat>, graph: FlowGraph, l: Loop, seen: set<JobId>)
    requires Coherent(p, rank, graph, l, [])
    requires forall j :: j in l.results.promises ==> !CrashVisible(l.sys.progress, seen, j)
    ensures Coherent(p, rank, graph, AfterAsk(l, seen), [])
  {
    Aspects(p, rank, graph, l, []);
    forall j | j in l.results.promises && Visible(l.sys.progress, seen, j)
      ensures l.sys.progress[j].outcome.Done? || l.sys.progress[j].outcome.Failed?
    {
      PromisesAreInFlight(l.results, l.flight, l.sys.progress, j);
      InFlightOutcome(p, rank, graph, l, j);
      assert !CrashVisible(l.sys.progress, seen, j);
    }
    AbsorbKeepsHolds(l.results, l.flight, l.sys.progress, seen);
  }

  /** `j` evaluates to `outcome`, from dependencies that have been collected with what they evaluate to. */
  ghost predicate EndsAt(p: Plan, rank: map<JobId, nat>, pr: Progresses, j: JobId, outcome: Outcome) {
    && Evaluable(p, rank) && j in p.jobs && Eval(p, rank, j) == outcome
    && forall d :: d in p.jobs[j].deps ==> CollectedAsEvaluated(p, rank, pr, d)
  }

  function AfterWork(p: Plan, l: Loop, tick: Tick): Loop
    requires WellWired(p) && Shaped(p, l.sys)
  {
    l.(sys := Works(p, l.sys, tick.work))
  }

  predicate NoCrash(l: Loop, seen: set<JobId>) {
    forall j :: j in l.results.promises ==> !CrashVisible(l.sys.progress, seen, j)
  }

  lemma CanWork(p: Plan, rank: map<JobId, nat>, graph: FlowGraph, l: Loop)
    requires Coherent(p, rank, graph, l, [])
    ensures WellWired(p) && Shaped(p, l.sys)
  {
    Aspects(p, rank, graph, l, []);
  }

  lemma CrashIsEval(p: Plan, rank: map<JobId, nat>, graph: FlowGraph, l: Loop, tick: Tick, j: JobId)
    requires Coherent(p, rank, graph, l, []) && WellWired(p) && Shaped(p, l.sys)
    requires j in l.results.promises && CrashVisible(AfterWork(p, l, tick).sys.progress, tick.seen, j)
    ensures EndsAt(p, rank, AfterWork(p, l, tick).sys.progress, j, Crashed)
  {
    WorkKeepsCoherent(p, rank, graph, l, tick.work);
    VisibleCrashIsEval(p, rank, graph, AfterWork(p, l, tick), tick.seen, j);
  }

  lemma VisibleCrashIsEval(p: Plan, rank: map<JobId, nat>, graph: FlowGraph, l: Loop, seen: set<JobId>, j: JobId)
    requires Coherent(p, rank, graph, l, []) && j in l.results.promises && CrashVisible(l.sys.progress, seen, j)
    ensures EndsAt(p, rank, l.sys.progress, j, Crashed)
  {
    Aspects(p, rank, graph, l, []);
    PromisesAreInFlight(l.results, l.flight, l.sys.progress, j);
    InFlightOutcome(p, rank, graph, l, j);
  }

  lemma AskedIsCoherent(p: Plan, rank: map<JobId, nat>, graph: FlowGraph, l: Loop, tick: Tick)
    requires Coherent(p, rank, graph, l, []) && WellWired(p) && Shaped(p, l.sys)
    requires NoCrash(AfterWork(p, l, tick), tick.seen)
    ensures Coherent(p, rank, graph, AfterAsk(AfterWork(p, l, tick), tick.seen), [])
  {
    WorkKeepsCoherent(p, rank, graph, l, tick.work);
    AbsorbKeepsCoherent(p, rank, graph, AfterWork(p, l, tick), tick.seen);
  }

  /** A poll that finds nothing ready keeps the loop coherent, and sees no completion of a submitted job. */
  lemma IdlePoll(p: Plan, rank: map<JobId, nat>, graph: FlowGraph, l: Loop, tick: Tick)
    requires Coherent(p, rank, graph, l, []) && WellWired(p) && Shaped(p, l.sys)
    requires NoCrash(AfterWork(p, l, tick), tick.seen)
    requires AfterAsk(AfterWork(p, l, tick), tick.seen).results.finished == []
    ensures Coherent(p, rank, graph, AfterAsk(AfterWork(p, l, tick), tick.seen), [])
    ensures forall j :: j in l.flight ==> !Visible(AfterWork(p, l, tick).sys.progress, tick.seen, j)
    ensures l.flight != {} ==> !Productive(p, tick)
  {
    AskedIsCoherent(p, rank, graph, l, tick);
    ProductiveMakesVisible(p, rank, graph, l, tick);
    WorkKeepsCoherent(p, rank, graph, l, tick.work);
    var worked := AfterWork(p, l, tick);
    assert Kept(Delivery, p, rank, graph, worked, []);
    forall j | j in l.flight ensures !Visible(worked.sys.progress, tick.seen, j) {
      if Visible(worked.sys.progress, tick.seen, j) {
        VisibleIsReturned(l.results, l.flight, worked.sys.progress, tick.seen, j);
      }
    }
  }

  /** The result a poll returns is what its job evaluates to. */
  lemma FirstResultIsEval(p: Plan, rank: map<JobId, nat>, graph: FlowGraph, l: Loop, tick: Tick)
    requires Coherent(p, rank, graph, l, []) && WellWired(p) && Shaped(p, l.sys)
    requires NoCrash(AfterWork(p, l, tick), tick.seen)
    requires AfterAsk(AfterWork(p, l, tick), tick.seen).results.finished != []
    ensures var asked := AfterAsk(AfterWork(p, l, tick), tick.seen);
            var (j, outcome) := asked.results.finished[0];
            && j in l.flight && j in l.spec.inFlight && j !in l.spec.finished && (outcome.Done? || outcome.Failed?)
            && EndsAt(p, rank, asked.sys.progress, j, outcome)
  {
    AskedIsCoherent(p, rank, graph, l, tick);
    FirstIsEval(p, rank, graph, AfterAsk(AfterWork(p, l, tick), tick.seen));
  }

  lemma FirstIsEval(p: Plan, rank: map<JobId, nat>, graph: FlowGraph, l: Loop)
    requires Coherent(p, rank, graph, l, []) && l.results.finished != []
    ensures var (j, outcome) := l.results.finished[0];
            && j in l.flight && j in l.spec.inFlight && j !in l.spec.finished && (outcome.Done? || outcome.Failed?)
            && EndsAt(p, rank, l.sys.progress, j, outcome)
  {
    Aspects(p, rank, graph, l, []);
    FirstIsInFlight(l.results, l.flight, l.sys.progress);
    InFlightOutcome(p, rank, graph, l, l.results.finished[0].0);
  }

  /** The first result has been returned and its job offered back. */
  function AfterOfferBack(l: Loop): Loop
    requires l.results.finished != []
  {
    var (j, outcome) := l.results.finished[0];
    l.(results := l.results.(finished := SwapRemoveFirst(l.results.finished)),
       sys := Move(l.sys, j, Collected(outcome)), spec := l.spec.AfterOffer(j), flight := l.flight - {j},
       tasksRunning := l.tasksRunning - 1, tasksCompleted := l.tasksCompleted + 1)
  }

  lemma OfferBackKeepsCoherent(p: Plan, rank: map<JobId, nat>, graph: FlowGraph, l: Loop, tick: Tick)
    requires Coherent(p, rank, graph, l, []) && WellWired(p) && Shaped(p, l.sys)
    requires NoCrash(AfterWork(p, l, tick), tick.seen)
    requires var finished := AfterAsk(AfterWork(p, l, tick), tick.seen).results.finished;
             finished != [] && finished[0].1.Done? && l.spec.AfterOffer(finished[0].0).Legal()
    ensures Coherent(p, rank, graph, AfterOfferBack(AfterAsk(AfterWork(p, l, tick), tick.seen)), [])
  {
    AskedIsCoherent(p, rank, graph, l, tick);
    FirstOfferedBack(p, rank, graph, AfterAsk(AfterWork(p, l, tick), tick.seen));
  }

  lemma OfferBackKeepsRunning(p: Plan, rank: map<JobId, nat>, graph: FlowGraph, l: Loop)
    requires Coherent(p, rank, graph, l, []) && l.results.finished != [] && l.results.finished[0].1.Done?
    ensures var l' := AfterOfferBack(l);
            && l.results.finished[0].0 in l.flight
            && WellWired(p) && Evaluable(p, rank) && Inv(p, rank, l'.sys)
            && Holds(l'.results, l'.flight, l'.sys.progress)
  {
    Aspects(p, rank, graph, l, []);
    var (j, outcome) := l.results.finished[0];
    FirstIsInFlight(l.results, l.flight, l.sys.progress);
    TakeFirstKeepsHolds(l.results, l.flight, l.sys.progress, Collected(outcome));
    StepKeepsInv(p, rank, l.sys, Event.Collect(j));
  }

  lemma OfferBackKeepsLifecycle(p: Plan, rank: map<JobId, nat>, graph: FlowGraph, l: Loop)
    requires Coherent(p, rank, graph, l, []) && l.results.finished != [] && l.results.finished[0].1.Done?
    requires l.results.finished[0].0 in l.flight && l.spec.AfterOffer(l.results.finished[0].0).Legal()
    ensures var l' := AfterOfferBack(l);
            && Partition(p, l'.spec, l'.waiting, l'.flight, l'.tasks)
            && Phases(p, l'.spec.finished, l'.flight, l'.sys.progress)
            && l'.tasksRunning == |l'.flight| && l'.tasksCompleted == |l'.spec.finished|
  {
    assert Kept(Lifecycle, p, rank, graph, l, []) && Kept(Counters, p, rank, graph, l, []);
    var (j, outcome) := l.results.finished[0];
    OfferKeepsPartition(p, l.spec, l.waiting, l.flight, l.tasks, j);
    OfferKeepsPhases(p, l.spec.finished, l.flight, l.sys.progress, j, outcome.value);
    assert j in l.spec.inFlight && j !in l.spec.finished;
    CountsAfter(l.flight, j);
    CountsAfter(l.spec.finished, j);
  }

  lemma FirstOfferedBack(p: Plan, rank: map<JobId, nat>, graph: FlowGraph, l: Loop)
    requires Coherent(p, rank, graph, l, []) && l.results.finished != [] && l.results.finished[0].1.Done?
    requires l.spec.AfterOffer(l.results.finished[0].0).Legal()
    ensures Coherent(p, rank, graph, AfterOfferBack(l), [])
  {
    assert Kept(Heap, p, rank, graph, l, []);
    OfferBackKeepsRunning(p, rank, graph, l);
    OfferBackKeepsLifecycle(p, rank, graph, l);
    FromAspects(p, rank, graph, AfterOfferBack(l), []);
  }

  lemma StepKeepsCoherent(p: Plan, rank: map<JobId, nat>, graph: FlowGraph, l: Loop)
    requires Coherent(p, rank, graph, l, [])
    ensures 0 < l.step <= MAX_USIZE && Coherent(p, rank, graph, l.(step := NextStep(l.step)), [])
  {
    Aspects(p, rank, graph, l, []);
  }

  lemma SubsetSize<T>(a: set<T>, b: set<T>)
    requires a <= b
    ensures |a| <= |b| && (b - a != {} ==> |a| < |b|)
  {
    assert b == a + (b - a);
  }

  lemma FinishedBound(jobs: map<JobId, Job>, spec: ReadySet)
    requires spec.deps == DepsOf(jobs) && spec.finished <= jobs.Keys
    ensures |spec.finished| <= |jobs|
    ensures spec.Remaining() != {} ==> |spec.finished| < |jobs|
  {
    assert DepsOf(jobs).Keys == jobs.Keys;
    SubsetSize(spec.finished, jobs.Keys);
  }

  lemma FinishedAreJobs(p: Plan, rank: map<JobId, nat>, graph: FlowGraph, l: Loop)
    requires Coherent(p, rank, graph, l, [])
    ensures l.tasksCompleted <= |p.jobs|
    ensures l.spec.Remaining() != {} ==> l.tasksCompleted < |p.jobs|
  {
    assert Kept(Lifecycle, p, rank, graph, l, []) && Kept(Counters, p, rank, graph, l, []);
    assert DepsOf(p.jobs).Keys == p.jobs.Keys;
    FinishedBound(p.jobs, l.spec);
  }

  /** Every job has been collected with the value it evaluates to. */
  ghost predicate AllAsEvaluated(p: Plan, rank: map<JobId, nat>, s: Sys) {
    Evaluable(p, rank) && forall j :: j in p.jobs ==> CollectedAsEvaluated(p, rank, s.progress, j)
  }

  lemma EmptyMeansCollected(p: Plan, rank: map<JobId, nat>, graph: FlowGraph, l: Loop)
    requires Coherent(p, rank, graph, l, []) && l.spec.Remaining() == {}
    ensures AllAsEvaluated(p, rank, l.sys) && Inv(p, rank, l.sys)
  {
    Aspects(p, rank, graph, l, []);
    forall j | j in p.jobs ensures CollectedAsEvaluated(p, rank, l.sys.progress, j) {
      NothingRemains(p, rank, l.sys, l.spec, l.waiting, l.flight, l.tasks, j);
    }
  }
}
