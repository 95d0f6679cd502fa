/**
  The two job orderings, src/job_ordering/stepped.rs and src/job_ordering/graph_traversal.rs, against one
  abstract machine that hands out jobs whose dependencies have all been offered back.
 */
module Orderings {
  import opened Graphs
  import opened Layering
  import opened Promises
  import opened Sequences
  import opened Wrappers

  // ---------------------------------------------------------------------------------------------
  // The abstract machine
  // ---------------------------------------------------------------------------------------------

  /** `inFlight` jobs have been polled and not yet offered back; `finished` ones have been offered back. */
  datatype ReadySet = ReadySet(deps: Deps, finished: set<JobId>, inFlight: set<JobId>) {

    function Ready(): set<JobId> {
      set j | j in deps && j !in finished && j !in inFlight && deps[j] <= finished
    }

    function Remaining(): set<JobId> {
      deps.Keys - finished
    }

    ghost predicate Legal() {
      && Closed(deps) && finished + inFlight <= deps.Keys && finished !! inFlight
      && forall j :: j in finished + inFlight ==> deps[j] <= finished
    }

    /** What a poll may hand out: ready jobs, each once, and some whenever jobs remain and none is in flight. */
    ghost predicate MayPoll(out: seq<JobId>) {
      && Distinct(out)
      && (forall j :: j in out ==> j in Ready())
      && (Remaining() != {} && inFlight == {} ==> out != [])
    }

    function AfterPoll(out: seq<JobId>): ReadySet {
      this.(inFlight := inFlight + set j | j in out)
    }

    function AfterOffer(j: JobId): ReadySet {
      this.(finished := finished + {j}, inFlight := inFlight - {j})
    }
  }

  datatype PollOrOffer = DoPoll(out: seq<JobId>) | DoOffer(job: JobId)

  ghost predicate IsRun(deps: Deps, run: seq<ReadySet>, ops: seq<PollOrOffer>) {
    && |run| == |ops| + 1 && run[0] == ReadySet(deps, {}, {})
    && forall i :: 0 <= i < |ops| ==> IsStep(run[i], ops[i], run[i + 1])
  }

  ghost predicate IsStep(s: ReadySet, op: PollOrOffer, s': ReadySet) {
    match op
    case DoPoll(out) => s.MayPoll(out) && s' == s.AfterPoll(out)
    case DoOffer(j) => j in s.inFlight && s' == s.AfterOffer(j)
  }

  lemma {:induction false} RunIsLegal(deps: Deps, run: seq<ReadySet>, ops: seq<PollOrOffer>, i: nat)
    requires Closed(deps) && IsRun(deps, run, ops) && i < |run|
    ensures run[i].Legal() && run[i].deps == deps
  {
    if i > 0 {
      RunIsLegal(deps, run, ops, i - 1);
    }
  }

  /** In every run that offers back only polled jobs, a job is handed out only after all its direct and
      indirect dependencies have been offered back, and no job is handed out twice. */
  lemma PolledAfterAllDependencies(deps: Deps, run: seq<ReadySet>, ops: seq<PollOrOffer>, i: nat, j: JobId)
    requires Closed(deps) && IsRun(deps, run, ops) && i < |ops|
    requires ops[i].DoPoll? && j in ops[i].out
    ensures forall d :: DependsOn(deps, j, d) ==> d in run[i].finished
    ensures j !in run[i].finished && j !in run[i].inFlight
  {
    RunIsLegal(deps, run, ops, i);
    assert IsStep(run[i], ops[i], run[i + 1]);
    forall d | DependsOn(deps, j, d) ensures d in run[i].finished {
      ClosedSetHoldsAll(deps, run[i].finished, j, d);
    }
  }

  // ---------------------------------------------------------------------------------------------
  // Stepped
  // ---------------------------------------------------------------------------------------------

  /** A step: jobs with a flag that is set once they have been handed out. */
  type Step = seq<(JobId, bool)>

  /** The jobs of a sequence of jobs with something each. */
  function Names<T>(step: seq<(JobId, T)>): (names: seq<JobId>)
    ensures |names| == |step|
  {
    seq(|step|, i requires 0 <= i < |step| => step[i].0)
  }

  function Marked(step: Step): Step {
    seq(|step|, i requires 0 <= i < |step| => (step[i].0, true))
  }

  /** The jobs of a step not handed out yet. */
  function Unoffered(step: Step): seq<JobId> {
    if step == [] then []
    else
      var k := |step| - 1;
      Unoffered(step[..k]) + if step[k].1 then [] else [step[k].0]
  }

  predicate Contains(step: Step, j: JobId) {
    exists i :: 0 <= i < |step| && step[i].0 == j
  }

  /** The first position of a job in a step that contains it. */
  function Position(step: Step, j: JobId): (k: nat)
    requires Contains(step, j)
    ensures k < |step| && step[k].0 == j && forall i :: 0 <= i < k ==> step[i].0 != j
  {
    if step[0].0 == j then 0
    else
      assert Contains(step[1..], j) by {
        var i :| 0 <= i < |step| && step[i].0 == j;
        assert step[1..][i - 1].0 == j;
      }
      1 + Position(step[1..], j)
  }

  function Without(step: Step, j: JobId): (rest: Step)
    requires Contains(step, j)
    ensures exists p :: 0 <= p <= |rest| && RemovedAt(step, j, p, rest)
  {
    var rest := step[..Position(step, j)] + step[Position(step, j) + 1..];
    assert RemovedAt(step, j, Position(step, j), rest);
    rest
  }

  /** `rest` is `step` without its entry at `p`, which is the first of job `j`. */
  predicate RemovedAt(step: Step, j: JobId, p: nat, rest: Step)
    requires p <= |rest|
  {
    && |step| == |rest| + 1 && step[p].0 == j && (forall i :: 0 <= i < p ==> step[i].0 != j)
    && rest[..p] == step[..p] && rest[p..] == step[p + 1..]
  }

  /** Removes `j` from the last step that contains it. */
  function RemoveFromLast(order: seq<Step>, j: JobId): seq<Step> {
    if order == [] then []
    else
      var last := |order| - 1;
      if Contains(order[last], j) then order[..last] + [Without(order[last], j)]
      else RemoveFromLast(order[..last], j) + [order[last]]
  }

  function NonEmpty(order: seq<Step>): seq<Step> {
    if order == [] then []
    else
      var last := |order| - 1;
      NonEmpty(order[..last]) + if order[last] == [] then [] else [order[last]]
  }

  ghost predicate StepsApart(order: seq<Step>) {
    forall s, t, j :: 0 <= s < t < |order| && Contains(order[s], j) ==> !Contains(order[t], j)
  }

  /** The steps hold exactly the jobs that have not been offered back. */
  ghost predicate HoldsRemaining(order: seq<Step>, spec: ReadySet) {
    && (forall s, j :: 0 <= s < |order| && Contains(order[s], j) ==> j in spec.Remaining())
    && (forall j :: j in spec.Remaining() ==> InSomeStep(order, 0, j))
  }

  ghost predicate DependenciesLater(order: seq<Step>, spec: ReadySet) {
    forall s, j, d :: 0 <= s < |order| && Contains(order[s], j) && j in spec.deps && d in spec.deps[j] ==>
      d in spec.finished || InSomeStep(order, s + 1, d)
  }

  /** A flag is set exactly while its job is in flight, and only jobs of the last step are. */
  ghost predicate FlagsInFlight(order: seq<Step>, spec: ReadySet) {
    && (forall s, i :: 0 <= s < |order| && 0 <= i < |order[s]| ==> (order[s][i].1 <==> order[s][i].0 in spec.inFlight))
    && (forall j :: j in spec.inFlight ==> order != [] && Contains(order[|order| - 1], j))
  }

  /** How the steps implement the abstract machine. */
  ghost predicate Implements(order: seq<Step>, w: nat, spec: ReadySet) {
    && spec.Legal()
    && (forall s :: 0 <= s < |order| ==> WellFormedStep(order[s], w))
    && StepsApart(order)
    && HoldsRemaining(order, spec)
    && DependenciesLater(order, spec)
    && FlagsInFlight(order, spec)
  }

  ghost predicate WellFormedStep(step: Step, w: nat) {
    step != [] && Distinct(Names(step)) && (w > 0 ==> |step| <= w)
  }

  ghost predicate InSomeStep(order: seq<Step>, s: nat, j: JobId) {
    exists t :: s <= t < |order| && Contains(order[t], j)
  }

  lemma {:induction false} UnofferedExactly(step: Step)
    requires Distinct(Names(step))
    ensures Distinct(Unoffered(step))
    ensures forall j :: j in Unoffered(step) <==> exists i :: 0 <= i < |step| && step[i] == (j, false)
  {
    if step != [] {
      var k := |step| - 1;
      assert Names(step[..k]) == Names(step)[..k];
      UnofferedExactly(step[..k]);
      forall i | 0 <= i < k ensures step[..k][i].0 != step[k].0 {
        assert Names(step)[i] != Names(step)[k];
      }
      forall j | j in Unoffered(step) ensures exists i :: 0 <= i < |step| && step[i] == (j, false) {
        if j in Unoffered(step[..k]) {
          var i :| 0 <= i < k && step[..k][i] == (j, false);
          assert step[i] == (j, false);
        } else {
          assert step[k] == (j, false);
        }
      }
      forall j, i | 0 <= i < |step| && step[i] == (j, false) ensures j in Unoffered(step) {
        assert i < k ==> step[..k][i] == (j, false);
      }
    }
  }

  /** `a` comes somewhere before `b`. */
  predicate Before(s: seq<JobId>, a: JobId, b: JobId) {
    exists p, q :: 0 <= p < q < |s| && s[p] == a && s[q] == b
  }

  /** The jobs not handed out yet are handed out in the order of the step. */
  lemma {:induction false} UnofferedInOrder(step: Step, i: nat, k: nat)
    requires i < k < |step| && !step[i].1 && !step[k].1
    ensures Before(Unoffered(step), step[i].0, step[k].0)
  {
    var n := |step| - 1;
    var earlier, all := Unoffered(step[..n]), Unoffered(step);
    assert all[..|earlier|] == earlier;
    if k < n {
      UnofferedInOrder(step[..n], i, k);
      var p, q :| 0 <= p < q < |earlier| && earlier[p] == step[i].0 && earlier[q] == step[k].0;
      assert all[p] == step[i].0 && all[q] == step[k].0;
    } else {
      UnofferedHas(step[..n], i);
      var p :| 0 <= p < |earlier| && earlier[p] == step[i].0;
      assert all[p] == step[i].0 && all[|earlier|] == step[k].0;
    }
  }

  lemma {:induction false} UnofferedHas(step: Step, i: nat)
    requires i < |step| && !step[i].1
    ensures step[i].0 in Unoffered(step)
  {
    if i < |step| - 1 {
      UnofferedHas(step[..|step| - 1], i);
    }
  }

  /** What `poll` leaves of the steps: the last one entirely marked. */
  function MarkLast(order: seq<Step>): seq<Step> {
    if order == [] then [] else order[..|order| - 1] + [Marked(order[|order| - 1])]
  }

  function LastUnoffered(order: seq<Step>): seq<JobId> {
    if order == [] then [] else Unoffered(order[|order| - 1])
  }

  lemma MarkingKeepsNames(order: seq<Step>, s: nat, j: JobId)
    requires s < |order|
    ensures Contains(MarkLast(order)[s], j) <==> Contains(order[s], j)
  {
    if i :| 0 <= i < |order[s]| && order[s][i].0 == j {
      assert MarkLast(order)[s][i].0 == j;
    }
    if i :| 0 <= i < |order[s]| && MarkLast(order)[s][i].0 == j {
      assert order[s][i].0 == j;
    }
  }

  /** A poll hands out only ready jobs, and some if none is in flight. */
  lemma SteppedPollIsLegal(order: seq<Step>, w: nat, spec: ReadySet)
    requires Implements(order, w, spec)
    ensures spec.MayPoll(LastUnoffered(order))
  {
    if order != [] {
      var last := |order| - 1;
      var step := order[last];
      assert WellFormedStep(step, w);
      UnofferedExactly(step);
      forall j | j in Unoffered(step) ensures j in spec.Ready() {
        var i :| 0 <= i < |step| && step[i] == (j, false);
        assert Contains(order[last], j) && j in spec.Remaining();
        var after := last + 1;
        assert forall d :: !InSomeStep(order, after, d);
        assert forall d :: d in spec.deps[j] ==> d in spec.finished;
      }
      if spec.inFlight == {} {
        assert step[0] == (step[0].0, false);
        assert step[0].0 in Unoffered(step);
      }
    }
  }

  lemma MarkedFlags(order: seq<Step>, w: nat, spec: ReadySet, s: nat, i: nat)
    requires Implements(order, w, spec) && s < |order| && i < |order[s]|
    ensures MarkLast(order)[s][i].1 <==> order[s][i].0 in spec.AfterPoll(LastUnoffered(order)).inFlight
  {
    var last := |order| - 1;
    assert WellFormedStep(order[last], w);
    UnofferedExactly(order[last]);
    if s == last {
      assert !order[s][i].1 ==> order[s][i] == (order[s][i].0, false);
    } else {
      assert Contains(order[s], order[s][i].0);
      assert forall k :: 0 <= k < |order[last]| ==> order[last][k].0 != order[s][i].0;
    }
  }

  lemma SteppedPollImplements(order: seq<Step>, w: nat, spec: ReadySet)
    requires Implements(order, w, spec)
    ensures Implements(MarkLast(order), w, spec.AfterPoll(LastUnoffered(order)))
  {
    var order', spec' := MarkLast(order), spec.AfterPoll(LastUnoffered(order));
    SteppedPollIsLegal(order, w, spec);
    forall s, j | 0 <= s < |order| ensures Contains(order'[s], j) <==> Contains(order[s], j) {
      MarkingKeepsNames(order, s, j);
    }
    forall s | 0 <= s < |order'| ensures WellFormedStep(order'[s], w) {
      assert WellFormedStep(order[s], w);
      assert Names(order'[s]) == Names(order[s]);
    }
    forall s, j | 0 <= s <= |order| && InSomeStep(order, s, j) ensures InSomeStep(order', s, j) {
      var t :| s <= t < |order| && Contains(order[t], j);
      assert Contains(order'[t], j);
    }
    forall s, i | 0 <= s < |order'| && 0 <= i < |order'[s]|
      ensures order'[s][i].1 <==> order'[s][i].0 in spec'.inFlight
    {
      MarkedFlags(order, w, spec, s, i);
    }
    forall j | j in spec'.inFlight ensures order' != [] && Contains(order'[|order'| - 1], j) {
      if j !in spec.inFlight {
        assert WellFormedStep(order[|order| - 1], w);
        UnofferedExactly(order[|order| - 1]);
      }
    }
  }

  // ---- offer ----

  function OfferBack(order: seq<Step>, j: JobId): seq<Step> {
    NonEmpty(RemoveFromLast(order, j))
  }

  lemma {:induction false} NonEmptyKeeps(order: seq<Step>)
    requires forall s :: 0 <= s < |order| ==> order[s] != []
    ensures NonEmpty(order) == order
  {
    if order != [] {
      NonEmptyKeeps(order[..|order| - 1]);
    }
  }

  /** The entries of all steps, one step after the other. */
  function Flat(order: seq<Step>): Step {
    if order == [] then [] else Flat(order[..|order| - 1]) + order[|order| - 1]
  }

  lemma FlatLast(order: seq<Step>, step: Step)
    ensures Flat(order + [step]) == Flat(order) + step
  {
    assert (order + [step])[..|order|] == order;
  }

  lemma {:induction false} NonEmptyKeepsEntries(order: seq<Step>)
    ensures Flat(NonEmpty(order)) == Flat(order)
    ensures forall s :: 0 <= s < |NonEmpty(order)| ==> NonEmpty(order)[s] != []
  {
    if order != [] {
      var rest, last := order[..|order| - 1], order[|order| - 1];
      NonEmptyKeepsEntries(rest);
      FlatLast(NonEmpty(rest), last);
      assert last == [] ==> NonEmpty(order) == NonEmpty(rest);
    }
  }

  predicate LosesEntry(before: Step, after: Step, x: Step, e: (JobId, bool), y: Step) {
    before == x + [e] + y && after == x + y
  }

  /** One entry of job `j` is missing; all others stay, in their order. */
  ghost predicate LosesOne(before: Step, after: Step, j: JobId) {
    exists x, flag, y :: LosesEntry(before, after, x, (j, flag), y)
  }

  lemma LosesOneInside(x: Step, before: Step, after: Step, y: Step, j: JobId)
    requires LosesOne(before, after, j)
    ensures LosesOne(x + before + y, x + after + y, j)
  {
    var u, flag, v :| LosesEntry(before, after, u, (j, flag), v);
    var start, end := x + u, v + y;
    assert LosesEntry(x + before + y, x + after + y, start, (j, flag), end);
  }

  lemma WithoutLosesOne(step: Step, j: JobId)
    requires Contains(step, j)
    ensures LosesOne(step, Without(step, j), j)
  {
    var rest := Without(step, j);
    var p :| 0 <= p <= |rest| && RemovedAt(step, j, p, rest);
    assert step[p] == (j, step[p].1) && step == step[..p] + [step[p]] + step[p + 1..];
    var x, flag, y := rest[..p], step[p].1, rest[p..];
    assert LosesEntry(step, rest, x, (j, flag), y);
  }

  lemma {:induction false} RemovesOneEntry(order: seq<Step>, j: JobId)
    ensures if InSomeStep(order, 0, j) then LosesOne(Flat(order), Flat(RemoveFromLast(order, j)), j)
            else RemoveFromLast(order, j) == order
  {
    if order != [] {
      var rest, last := order[..|order| - 1], order[|order| - 1];
      assert order == rest + [last];
      if Contains(last, j) {
        FlatLast(rest, Without(last, j));
        WithoutLosesOne(last, j);
        LosesOneInside(Flat(rest), last, Without(last, j), [], j);
        assert Flat(rest) + last + [] == Flat(order);
        assert Flat(rest) + Without(last, j) + [] == Flat(rest) + Without(last, j);
      } else {
        RemovesOneEntry(rest, j);
        FlatLast(RemoveFromLast(rest, j), last);
        assert InSomeStep(order, 0, j) <==> InSomeStep(rest, 0, j) by {
          assert forall t :: 0 <= t < |rest| ==> rest[t] == order[t];
        }
        if InSomeStep(rest, 0, j) {
          LosesOneInside([], Flat(rest), Flat(RemoveFromLast(rest, j)), last, j);
          assert [] + Flat(rest) + last == Flat(order);
          assert [] + Flat(RemoveFromLast(rest, j)) + last == Flat(RemoveFromLast(rest, j)) + last;
        }
      }
    }
  }

  /** Offering a job removes one entry of it, if there is one, and every step without entries; all other entries stay,
      in their order. */
  lemma OfferRemovesOneEntry(order: seq<Step>, j: JobId)
    ensures forall s :: 0 <= s < |OfferBack(order, j)| ==> OfferBack(order, j)[s] != []
    ensures if InSomeStep(order, 0, j) then LosesOne(Flat(order), Flat(OfferBack(order, j)), j)
            else Flat(OfferBack(order, j)) == Flat(order)
  {
    RemovesOneEntry(order, j);
    NonEmptyKeepsEntries(RemoveFromLast(order, j));
  }

  /** Offering back a job in flight only shortens the last step. */
  lemma OfferShortensLast(order: seq<Step>, w: nat, spec: ReadySet, j: JobId)
    requires Implements(order, w, spec) && j in spec.inFlight
    ensures order != [] && Contains(order[|order| - 1], j)
    ensures var last := |order| - 1;
            OfferBack(order, j) == order[..last]
                                 + if |order[last]| == 1 then [] else [Without(order[last], j)]
  {
    var last := |order| - 1;
    forall s | 0 <= s < last ensures order[..last][s] != [] {
      assert WellFormedStep(order[s], w);
    }
    NonEmptyKeeps(order[..last]);
    assert RemoveFromLast(order, j) == order[..last] + [Without(order[last], j)];
    assert (order[..last] + [Without(order[last], j)])[..last] == order[..last];
  }

  lemma WithoutRemoves(step: Step, w: nat, j: JobId, k: JobId)
    requires WellFormedStep(step, w) && Contains(step, j)
    ensures Contains(Without(step, j), k) <==> Contains(step, k) && k != j
    ensures |step| > 1 ==> WellFormedStep(Without(step, j), w)
  {
    var shorter := Without(step, j);
    var p :| 0 <= p <= |shorter| && RemovedAt(step, j, p, shorter);
    RemovedContains(step, j, p, shorter, k);
    assert Names(shorter) == Names(step)[..p] + Names(step)[p + 1..];
  }

  lemma RemovedContains(step: Step, j: JobId, p: nat, rest: Step, k: JobId)
    requires p <= |rest| && RemovedAt(step, j, p, rest) && Distinct(Names(step))
    ensures Contains(rest, k) <==> Contains(step, k) && k != j
  {
    RemovedEntries(step, j, p, rest);
    if Contains(rest, k) {
      var i :| 0 <= i < |rest| && rest[i].0 == k;
      var at := if i < p then i else i + 1;
      assert step[at].0 == k && Names(step)[p] == j && Names(step)[at] == k;
    }
    if Contains(step, k) && k != j {
      var i :| 0 <= i < |step| && step[i].0 == k;
      assert rest[if i < p then i else i - 1].0 == k;
    }
  }

  lemma RemovedEntries(step: Step, j: JobId, p: nat, rest: Step)
    requires p <= |rest| && RemovedAt(step, j, p, rest)
    ensures forall i :: 0 <= i < |rest| ==> rest[i] == step[if i < p then i else i + 1]
  {
    forall i | 0 <= i < |rest| ensures rest[i] == step[if i < p then i else i + 1] {
      if i < p {
        assert rest[i] == rest[..p][i];
      } else {
        assert rest[i] == rest[p..][i - p];
      }
    }
  }

  /** `order'` is `order` without job `j`, steps that became empty having been dropped from the end. */
  ghost predicate DropsJob(order: seq<Step>, order': seq<Step>, j: JobId) {
    && |order'| <= |order|
    && (forall s, k :: 0 <= s < |order'| ==> (Contains(order'[s], k) <==> Contains(order[s], k) && k != j))
    && (forall s, k :: |order'| <= s < |order| && Contains(order[s], k) ==> k == j)
  }

  lemma OfferDropsJob(order: seq<Step>, w: nat, spec: ReadySet, j: JobId)
    requires Implements(order, w, spec) && j in spec.inFlight
    ensures DropsJob(order, OfferBack(order, j), j)
  {
    OfferShortensLast(order, w, spec, j);
    var last, order' := |order| - 1, OfferBack(order, j);
    assert WellFormedStep(order[last], w);
    forall s, k | 0 <= s < |order'| ensures Contains(order'[s], k) <==> Contains(order[s], k) && k != j {
      if s == last {
        WithoutRemoves(order[last], w, j, k);
      } else {
        assert order'[s] == order[s];
        assert !Contains(order[s], j);
      }
    }
    forall s, k | |order'| <= s < |order| && Contains(order[s], k) ensures k == j {
      assert s == last && |order[last]| == 1;
    }
  }

  lemma OfferKeepsWellFormed(order: seq<Step>, w: nat, spec: ReadySet, j: JobId, s: nat)
    requires Implements(order, w, spec) && j in spec.inFlight && s < |OfferBack(order, j)|
    ensures WellFormedStep(OfferBack(order, j)[s], w)
  {
    OfferShortensLast(order, w, spec, j);
    assert WellFormedStep(order[s], w);
    if s == |order| - 1 {
      WithoutRemoves(order[s], w, j, j);
    }
  }

  lemma DropKeepsLater(order: seq<Step>, order': seq<Step>, j: JobId, s: nat, k: JobId)
    requires DropsJob(order, order', j) && InSomeStep(order, s, k) && k != j
    ensures InSomeStep(order', s, k)
  {
    var t :| s <= t < |order| && Contains(order[t], k);
    assert t < |order'| && Contains(order'[t], k);
  }

  lemma SteppedOfferImplements(order: seq<Step>, w: nat, spec: ReadySet, j: JobId)
    requires Implements(order, w, spec) && j in spec.inFlight
    ensures Implements(OfferBack(order, j), w, spec.AfterOffer(j))
  {
    var order', spec' := OfferBack(order, j), spec.AfterOffer(j);
    OfferDropsJob(order, w, spec, j);
    forall s | 0 <= s < |order'| ensures WellFormedStep(order'[s], w) {
      OfferKeepsWellFormed(order, w, spec, j, s);
    }
    assert HoldsRemaining(order', spec') by {
      forall s, k | 0 <= s < |order'| && Contains(order'[s], k) ensures k in spec'.Remaining() {
        assert Contains(order[s], k) && k != j;
        assert k in spec.Remaining();
      }
      forall k | k in spec'.Remaining() ensures InSomeStep(order', 0, k) {
        DropKeepsLater(order, order', j, 0, k);
      }
    }
    forall s, k, d | 0 <= s < |order'| && Contains(order'[s], k) && k in spec.deps && d in spec.deps[k]
      ensures d in spec'.finished || InSomeStep(order', s + 1, d)
    {
      if d !in spec'.finished {
        assert Contains(order[s], k);
        DropKeepsLater(order, order', j, s + 1, d);
      }
    }
    OfferFlags(order, w, spec, j);
  }

  lemma OfferFlags(order: seq<Step>, w: nat, spec: ReadySet, j: JobId)
    requires Implements(order, w, spec) && j in spec.inFlight
    ensures FlagsInFlight(OfferBack(order, j), spec.AfterOffer(j))
  {
    var order': seq<Step>, spec' := OfferBack(order, j), spec.AfterOffer(j);
    OfferDropsJob(order, w, spec, j);
    OfferShortensLast(order, w, spec, j);
    forall s, i | 0 <= s < |order'| && 0 <= i < |order'[s]|
      ensures order'[s][i].1 <==> order'[s][i].0 in spec'.inFlight
    {
      OfferKeepsFlags(order, w, spec, j, s, i);
    }
    forall k | k in spec'.inFlight ensures order' != [] && Contains(order'[|order'| - 1], k) {
      assert Contains(order[|order| - 1], k) && k != j;
    }
  }

  lemma OfferKeepsFlags(order: seq<Step>, w: nat, spec: ReadySet, j: JobId, s: nat, i: nat)
    requires Implements(order, w, spec) && j in spec.inFlight
    requires s < |OfferBack(order, j)| && i < |OfferBack(order, j)[s]|
    ensures var entry := OfferBack(order, j)[s][i];
            entry.1 <==> entry.0 in spec.AfterOffer(j).inFlight
  {
    OfferShortensLast(order, w, spec, j);
    var last := |order| - 1;
    if s == last {
      assert WellFormedStep(order[last], w);
      var p := Position(order[last], j);
      var k := if i < p then i else i + 1;
      assert OfferBack(order, j)[s][i] == order[last][k];
      assert Names(order[last])[k] != Names(order[last])[p];
    } else {
      assert Contains(order[s], order[s][i].0);
    }
  }

  /** At most `w` jobs are polled and not yet offered back. */
  lemma SteppedInFlightBound(order: seq<Step>, w: nat, spec: ReadySet)
    requires Implements(order, w, spec) && w > 0
    ensures |spec.inFlight| <= w
  {
    if order != [] {
      var step := order[|order| - 1];
      assert WellFormedStep(step, w);
      forall j | j in spec.inFlight ensures j in Names(step) {
        var i :| 0 <= i < |step| && step[i].0 == j;
        assert Names(step)[i] == j;
      }
      SubsetOfSequence(spec.inFlight, Names(step));
    } else {
      assert spec.inFlight == {};
    }
  }

  lemma {:induction false} SubsetOfSequence(s: set<JobId>, t: seq<JobId>)
    requires forall j :: j in s ==> j in t
    ensures |s| <= |t|
  {
    if t == [] {
      assert s == {};
    } else {
      var j := t[|t| - 1];
      SubsetOfSequence(s - {j}, t[..|t| - 1]);
      assert j in s ==> s == (s - {j}) + {j};
      assert j !in s ==> s == s - {j};
    }
  }

  lemma MarkNext(step: Step, i: nat)
    requires i < |step|
    ensures Marked(step[..i + 1]) == Marked(step[..i]) + [(step[i].0, true)]
    ensures Unoffered(step[..i + 1]) == Unoffered(step[..i]) + if step[i].1 then [] else [step[i].0]
  {
    assert step[..i + 1][..i] == step[..i];
  }

  /** One pass over a step: what was not handed out yet is, and is marked. */
  method MarkStep(step: Step) returns (tasks: Step, out: seq<JobId>)
    ensures tasks == Marked(step) && out == Unoffered(step)
  {
    tasks, out := step, [];
    var i := 0;
    while i < |tasks|
      invariant 0 <= i <= |tasks| == |step|
      invariant tasks[..i] == Marked(step[..i]) && tasks[i..] == step[i..]
      invariant out == Unoffered(step[..i])
    {
      var (task, offered) := tasks[i];
      MarkNext(step, i);
      assert tasks[i] == tasks[i..][0] == step[i];
      if !offered {
        out := out + [task];
        tasks := tasks[i := (task, true)];
      }
      assert tasks[..i + 1] == tasks[..i] + [(task, true)];
      assert tasks[i + 1..] == step[i + 1..];
      i := i + 1;
    }
    assert step[..i] == step && tasks[..i] == tasks;
  }

  lemma RemoveSkips(order: seq<Step>, s: nat, task: JobId)
    requires 0 < s <= |order| && !Contains(order[s - 1], task)
    ensures RemoveFromLast(order[..s], task) + order[s..] == RemoveFromLast(order[..s - 1], task) + order[s - 1..]
  {
    assert order[..s][..s - 1] == order[..s - 1];
    assert order[s - 1..] == [order[s - 1]] + order[s..];
  }

  lemma RemoveHere(order: seq<Step>, s: nat, task: JobId)
    requires 0 < s <= |order| && Contains(order[s - 1], task)
    ensures RemoveFromLast(order[..s], task) + order[s..] == order[s - 1 := Without(order[s - 1], task)]
  {
    assert order[..s][..s - 1] == order[..s - 1];
  }

  /** The search from the back for the step that holds a job, which is removed from it. */
  method RemoveFromBack(order: seq<Step>, task: JobId) returns (steps: seq<Step>)
    ensures steps == RemoveFromLast(order, task)
  {
    var s := |order|;
    assert order[..s] == order;
    while s > 0 && !Contains(order[s - 1], task)
      invariant 0 <= s <= |order|
      invariant RemoveFromLast(order, task) == RemoveFromLast(order[..s], task) + order[s..]
    {
      RemoveSkips(order, s, task);
      s := s - 1;
    }
    if s == 0 {
      return order;
    }
    RemoveHere(order, s, task);
    return order[s - 1 := Without(order[s - 1], task)];
  }

  class SteppedOrdering {
    var order: seq<Step>
    ghost var width: nat
    ghost var spec: ReadySet

    ghost predicate Valid()
      reads this
    {
      Implements(order, width, spec)
    }

    /** Wraps steps that implement a machine nothing has been polled from. */
    constructor (steps: seq<Step>, ghost w: nat, ghost deps: Deps)
      requires Implements(steps, w, ReadySet(deps, {}, {}))
      ensures Valid() && order == steps && width == w && spec == ReadySet(deps, {}, {})
    {
      order, width, spec := steps, w, ReadySet(deps, {}, {});
    }

    method Poll() returns (out: seq<JobId>)
      requires Valid()
      modifies this
      ensures Valid() && width == old(width)
      ensures out == LastUnoffered(old(order)) && order == MarkLast(old(order))
      ensures old(spec).MayPoll(out) && spec == old(spec).AfterPoll(out)
    {
      SteppedPollIsLegal(order, width, spec);
      SteppedPollImplements(order, width, spec);
      spec := spec.AfterPoll(LastUnoffered(order));
      out := MarkLastStep();
    }

    method MarkLastStep() returns (out: seq<JobId>)
      modifies `order
      ensures out == LastUnoffered(old(order)) && order == MarkLast(old(order))
    {
      if order == [] {
        return [];
      }
      var last := |order| - 1;
      var tasks;
      tasks, out := MarkStep(order[last]);
      order := order[last := tasks];
    }

    /** Removes a job from the last step that holds it, and then every empty step.  Offering a job no step
        holds changes nothing; offering one that was polled is a step of the machine. */
    method Offer(task: JobId)
      requires Valid()
      modifies this
      ensures order == OfferBack(old(order), task) && width == old(width)
      ensures task in old(spec).inFlight ==> Valid() && spec == old(spec).AfterOffer(task)
    {
      if task in spec.inFlight {
        SteppedOfferImplements(order, width, spec, task);
        spec := spec.AfterOffer(task);
      }
      var steps := RemoveFromBack(order, task);
      order := NonEmpty(steps);
    }

    method Empty() returns (empty: bool)
      requires Valid()
      ensures empty <==> spec.Remaining() == {}
    {
      empty := order == [];
      if order != [] {
        assert WellFormedStep(order[0], width);
        assert Contains(order[0], order[0][0].0);
        assert order[0][0].0 in spec.Remaining();
      } else {
        assert forall j :: j in spec.Remaining() ==> InSomeStep(order, 0, j);
      }
    }
  }

  // ---- construction ----

  lemma IndexedIsDag(deps: Deps, order: seq<JobId>)
    requires Closed(deps) && IsTopological(deps, order)
    ensures Dag(Indexed(deps, order)) && |order| == |deps|
    ensures forall p, d :: 0 <= p < |order| && d in deps[order[p]] ==>
              exists q: nat :: q < |order| && order[q] == d && q in Indexed(deps, order)[p]
  {
    forall p, d | 0 <= p < |order| && d in deps[order[p]]
      ensures exists q: nat :: q < |order| && order[q] == d && q in Indexed(deps, order)[p]
    {
      assert d in order;
      var q :| 0 <= q < |order| && order[q] == d;
      assert q in Indexed(deps, order)[p];
    }
    OrderSize(order, deps.Keys);
  }

  lemma {:induction false} OrderSize(order: seq<JobId>, jobs: set<JobId>)
    requires Distinct(order)
    requires forall j :: j in order <==> j in jobs
    ensures |order| == |jobs|
  {
    if order == [] {
      assert jobs == {};
    } else {
      var k := |order| - 1;
      forall j ensures j in order[..k] <==> j in jobs - {order[k]} {
        assert j in order <==> j in order[..k] || j == order[k];
      }
      OrderSize(order[..k], jobs - {order[k]});
    }
  }

  ghost predicate NamedIn(level: set<nat>, topo: seq<JobId>, j: JobId) {
    exists v :: v in level && v < |topo| && topo[v] == j
  }

  /** `step` lists the jobs of `level`, none of them handed out. */
  ghost predicate StepOf(step: Step, level: set<nat>, topo: seq<JobId>) {
    && |step| == |level| && Distinct(Names(step))
    && (forall i :: 0 <= i < |step| ==> !step[i].1)
    && forall j :: Contains(step, j) <==> NamedIn(level, topo, j)
  }

  /** The jobs of one level as an unmarked step, in any order. */
  method LevelToStep(level: set<nat>, topo: seq<JobId>) returns (step: Step)
    requires forall v :: v in level ==> v < |topo|
    requires Distinct(topo)
    ensures StepOf(step, level, topo)
  {
    step := [];
    var rest := level;
    assert level - rest == {};
    while rest != {}
      invariant rest <= level && StepOf(step, level - rest, topo)
    {
      var v :| v in rest;
      ExtendStep(step, level - rest, topo, v);
      step := step + [(topo[v], false)];
      assert level - (rest - {v}) == (level - rest) + {v};
      rest := rest - {v};
    }
    assert level - rest == level;
  }

  lemma ExtendStep(step: Step, level: set<nat>, topo: seq<JobId>, v: nat)
    requires StepOf(step, level, topo) && Distinct(topo) && v < |topo| && v !in level
    requires forall u :: u in level ==> u < |topo|
    ensures StepOf(step + [(topo[v], false)], level + {v}, topo)
  {
    var longer := step + [(topo[v], false)];
    assert !Contains(step, topo[v]) by {
      assert forall u :: u in level ==> topo[u] != topo[v];
    }
    forall i | 0 <= i < |step| ensures step[i].0 != topo[v] {
    }
    assert Names(longer) == Names(step) + [topo[v]];
    forall j ensures Contains(longer, j) <==> NamedIn(level + {v}, topo, j) {
      assert longer[|step|].0 == topo[v];
      if Contains(step, j) {
        var i :| 0 <= i < |step| && step[i].0 == j;
        assert longer[i].0 == j;
      }
      if NamedIn(level, topo, j) {
        var u :| u in level && u < |topo| && topo[u] == j;
        assert u in level + {v};
      }
      assert Contains(longer, j) <==> Contains(step, j) || j == topo[v];
      assert NamedIn(level + {v}, topo, j) <==> NamedIn(level, topo, j) || j == topo[v];
    }
  }

  /** The levels as steps, highest level first. */
  method LevelsToSteps(levels: Levels, topo: seq<JobId>, ghost levelOf: map<nat, nat>, ghost height: nat)
    returns (steps: seq<Step>)
    requires Represents(levels, levelOf, height) && Distinct(topo)
    requires forall v :: v in levelOf ==> v < |topo|
    ensures |steps| == height
    ensures forall s :: 0 <= s < height ==> StepOf(steps[s], levels[height - 1 - s], topo)
  {
    steps := [];
    var l: nat := 0;
    while l in levels
      invariant |steps| == l <= height
      invariant forall s :: 0 <= s < l ==> StepOf(steps[s], levels[l - 1 - s], topo)
      decreases height - l
    {
      assert forall v :: v in levels[l] ==> v in levelOf;
      var step := LevelToStep(levels[l], topo);
      steps := [step] + steps;
      l := l + 1;
    }
  }

  /** What the layering of a reduced graph says about the jobs themselves. */
  ghost predicate LayeredJobs(
      deps: Deps, topo: seq<JobId>, w: nat, levels: Levels, levelOf: map<nat, nat>, height: nat, steps: seq<Step>)
  {
    && Closed(deps) && IsTopological(deps, topo) && Dag(Indexed(deps, topo))
    && Represents(levels, levelOf, height)
    && Greedy(Reduction(Indexed(deps, topo)), w, levels, levelOf)
    && (forall v: nat :: v in levelOf <==> v < |topo|)
    && |steps| == height
    && forall s :: 0 <= s < height ==> StepOf(steps[s], levels[height - 1 - s], topo)
  }

  lemma StepIndexOf(deps: Deps, topo: seq<JobId>, w: nat, levels: Levels, levelOf: map<nat, nat>, height: nat,
                    steps: seq<Step>, s: nat, j: JobId) returns (v: nat)
    requires LayeredJobs(deps, topo, w, levels, levelOf, height, steps)
    requires s < |steps| && Contains(steps[s], j)
    ensures v < |topo| && topo[v] == j && levelOf[v] == height - 1 - s
  {
    assert StepOf(steps[s], levels[height - 1 - s], topo);
    v :| v in levels[height - 1 - s] && v < |topo| && topo[v] == j;
  }

  lemma StepHolding(deps: Deps, topo: seq<JobId>, w: nat, levels: Levels, levelOf: map<nat, nat>, height: nat,
                    steps: seq<Step>, v: nat)
    requires LayeredJobs(deps, topo, w, levels, levelOf, height, steps)
    requires v < |topo|
    ensures levelOf[v] < height && Contains(steps[height - 1 - levelOf[v]], topo[v])
  {
    var s := height - 1 - levelOf[v];
    assert StepOf(steps[s], levels[height - 1 - s], topo);
    assert NamedIn(levels[height - 1 - s], topo, topo[v]);
  }

  lemma DependencyInLaterStep(deps: Deps, topo: seq<JobId>, w: nat, levels: Levels, levelOf: map<nat, nat>, height: nat,
                              steps: seq<Step>, s: nat, j: JobId, d: JobId)
    requires LayeredJobs(deps, topo, w, levels, levelOf, height, steps)
    requires s < |steps| && Contains(steps[s], j) && j in deps && d in deps[j]
    ensures InSomeStep(steps, s + 1, d)
  {
    var adj := Indexed(deps, topo);
    var p := StepIndexOf(deps, topo, w, levels, levelOf, height, steps, s, j);
    IndexedIsDag(deps, topo);
    var q: nat :| q < |topo| && topo[q] == d && q in adj[p];
    assert Reach(adj, q, q);
    ReductionKeepsReachability(adj, p, q);
    PathsGoDown(Reduction(adj), levelOf, p, q);
    StepHolding(deps, topo, w, levels, levelOf, height, steps, q);
  }

  lemma LayeredStepsWellFormed(deps: Deps, topo: seq<JobId>, w: nat, levels: Levels, levelOf: map<nat, nat>,
                               height: nat, steps: seq<Step>, s: nat)
    requires LayeredJobs(deps, topo, w, levels, levelOf, height, steps) && s < |steps|
    ensures WellFormedStep(steps[s], w) && forall i :: 0 <= i < |steps[s]| ==> !steps[s][i].1
  {
    assert StepOf(steps[s], levels[height - 1 - s], topo);
    assert levels[height - 1 - s] != {};
  }

  lemma LayeredStepLacks(deps: Deps, topo: seq<JobId>, w: nat, levels: Levels, levelOf: map<nat, nat>, height: nat,
                         steps: seq<Step>, t: nat, u: nat)
    requires LayeredJobs(deps, topo, w, levels, levelOf, height, steps)
    requires t < |steps| && u < |topo| && u in levelOf && levelOf[u] != height - 1 - t
    ensures !Contains(steps[t], topo[u])
  {
    assert StepOf(steps[t], levels[height - 1 - t], topo);
    forall v | v in levels[height - 1 - t] && v < |topo| ensures topo[v] != topo[u] {
      assert levelOf[v] != levelOf[u];
    }
    assert !NamedIn(levels[height - 1 - t], topo, topo[u]);
  }

  lemma LayeredStepsApart(deps: Deps, topo: seq<JobId>, w: nat, levels: Levels, levelOf: map<nat, nat>, height: nat,
                          steps: seq<Step>)
    requires LayeredJobs(deps, topo, w, levels, levelOf, height, steps)
    ensures StepsApart(steps)
  {
    forall s, t, j | 0 <= s < t < |steps| && Contains(steps[s], j) ensures !Contains(steps[t], j) {
      var u := StepIndexOf(deps, topo, w, levels, levelOf, height, steps, s, j);
      LayeredStepLacks(deps, topo, w, levels, levelOf, height, steps, t, u);
    }
  }

  lemma LayeredStepsHoldAll(deps: Deps, topo: seq<JobId>, w: nat, levels: Levels, levelOf: map<nat, nat>, height: nat,
                            steps: seq<Step>)
    requires LayeredJobs(deps, topo, w, levels, levelOf, height, steps)
    ensures HoldsRemaining(steps, ReadySet(deps, {}, {}))
  {
    var spec := ReadySet(deps, {}, {});
    forall s, j | 0 <= s < |steps| && Contains(steps[s], j) ensures j in spec.Remaining() {
      var v := StepIndexOf(deps, topo, w, levels, levelOf, height, steps, s, j);
      assert topo[v] in topo;
    }
    forall j | j in spec.Remaining() ensures InSomeStep(steps, 0, j) {
      assert j in topo;
      var v: nat :| v < |topo| && topo[v] == j;
      StepHolding(deps, topo, w, levels, levelOf, height, steps, v);
    }
  }

  lemma LayeredDependenciesLater(deps: Deps, topo: seq<JobId>, w: nat, levels: Levels, levelOf: map<nat, nat>,
                                 height: nat, steps: seq<Step>)
    requires LayeredJobs(deps, topo, w, levels, levelOf, height, steps)
    ensures DependenciesLater(steps, ReadySet(deps, {}, {}))
  {
    forall s, j, d | 0 <= s < |steps| && Contains(steps[s], j) && j in deps && d in deps[j]
      ensures InSomeStep(steps, s + 1, d)
    {
      DependencyInLaterStep(deps, topo, w, levels, levelOf, height, steps, s, j, d);
    }
  }

  lemma LayeredStepsImplement(deps: Deps, topo: seq<JobId>, w: nat, levels: Levels, levelOf: map<nat, nat>, height: nat,
                              steps: seq<Step>)
    requires LayeredJobs(deps, topo, w, levels, levelOf, height, steps)
    ensures Implements(steps, w, ReadySet(deps, {}, {}))
  {
    forall s | 0 <= s < |steps|
      ensures WellFormedStep(steps[s], w) && forall i :: 0 <= i < |steps[s]| ==> !steps[s][i].1
    {
      LayeredStepsWellFormed(deps, topo, w, levels, levelOf, height, steps, s);
    }
    LayeredStepsApart(deps, topo, w, levels, levelOf, height, steps);
    LayeredStepsHoldAll(deps, topo, w, levels, levelOf, height, steps);
    LayeredDependenciesLater(deps, topo, w, levels, levelOf, height, steps);
  }

  lemma {:induction false} ChainIsWalk(deps: Deps, topo: seq<JobId>, chain: seq<nat>)
    requires Closed(deps) && IsTopological(deps, topo) && Dag(Indexed(deps, topo))
    requires IsChain(Reduction(Indexed(deps, topo)), chain)
    ensures var walk := seq(|chain|, i requires 0 <= i < |chain| => topo[chain[i]]);
            walk != [] ==> IsWalk(deps, walk) && walk[0] in deps
  {
    var adj := Indexed(deps, topo);
    var walk := seq(|chain|, i requires 0 <= i < |chain| => topo[chain[i]]);
    if walk != [] {
      assert topo[chain[0]] in topo;
    }
    forall i | 0 <= i < |chain| - 1 ensures walk[i] in deps && walk[i + 1] in deps[walk[i]] {
      assert topo[chain[i]] in topo;
      assert chain[i + 1] in adj[chain[i]];
    }
  }

  lemma LayeredStepsWithinGraham(deps: Deps, topo: seq<JobId>, w: nat, levels: Levels, levelOf: map<nat, nat>,
                                 height: nat, steps: seq<Step>)
    requires LayeredJobs(deps, topo, w, levels, levelOf, height, steps) && w > 0
    ensures WithinGraham(deps, w, |steps|)
  {
    var red := Reduction(Indexed(deps, topo));
    var chain := GrahamBound(red, w, levels, levelOf, height);
    ChainIsWalk(deps, topo, chain);
    IndexedIsDag(deps, topo);
    assert GrahamWitness(deps, w, |steps|, seq(|chain|, i requires 0 <= i < |chain| => topo[chain[i]]));
  }

  /** The steps are those of a sort of the reduced graph that prefers late dependents, from the end of which every
      index went to the lowest level that could take it; the highest level comes first. */
  ghost predicate BuiltFrom(deps: Deps, topo: seq<JobId>, w: nat, steps: seq<Step>, ordering: seq<nat>,
                            levelOf: map<nat, nat>)
    requires Closed(deps) && IsTopological(deps, topo) && Dag(Indexed(deps, topo))
  {
    var red := Reduction(Indexed(deps, topo));
    && SortOf(red, ordering) && PickedLatest(red, ordering) && LowestLevels(red, ordering, w, levelOf, 0)
    && StepsAreLevels(steps, topo, levelOf)
  }

  ghost predicate StepsAreLevels(steps: seq<Step>, topo: seq<JobId>, levelOf: map<nat, nat>) {
    && (forall v: nat :: v in levelOf <==> v < |topo|)
    && forall s, j :: 0 <= s < |steps| ==>
                        (Contains(steps[s], j) <==> OnNamedLevel(levelOf, topo, |steps| - 1 - s, j))
  }

  ghost predicate OnNamedLevel(levelOf: map<nat, nat>, topo: seq<JobId>, l: nat, j: JobId) {
    exists v :: v in levelOf && levelOf[v] == l && v < |topo| && topo[v] == j
  }

  ghost predicate Built(deps: Deps, topo: seq<JobId>, w: nat, steps: seq<Step>)
    requires Closed(deps) && IsTopological(deps, topo)
  {
    Dag(Indexed(deps, topo)) && exists ordering, levelOf :: BuiltFrom(deps, topo, w, steps, ordering, levelOf)
  }

  lemma StepsAreBuilt(deps: Deps, topo: seq<JobId>, w: nat, levels: Levels, levelOf: map<nat, nat>, height: nat,
                      steps: seq<Step>, ordering: seq<nat>)
    requires LayeredJobs(deps, topo, w, levels, levelOf, height, steps)
    requires var red := Reduction(Indexed(deps, topo));
             SortOf(red, ordering) && PickedLatest(red, ordering) && LowestLevels(red, ordering, w, levelOf, 0)
    ensures Built(deps, topo, w, steps)
  {
    LayeredStepsAreLevels(deps, topo, w, levels, levelOf, height, steps);
    assert BuiltFrom(deps, topo, w, steps, ordering, levelOf);
  }

  lemma LayeredStepsAreLevels(deps: Deps, topo: seq<JobId>, w: nat, levels: Levels, levelOf: map<nat, nat>, height: nat,
                              steps: seq<Step>)
    requires LayeredJobs(deps, topo, w, levels, levelOf, height, steps)
    ensures StepsAreLevels(steps, topo, levelOf)
  {
    forall s, j | 0 <= s < |steps|
      ensures Contains(steps[s], j) <==> OnNamedLevel(levelOf, topo, |steps| - 1 - s, j)
    {
      assert StepOf(steps[s], levels[height - 1 - s], topo);
      StepIsLevel(levels, levelOf, height, topo, steps[s], height - 1 - s, j);
    }
  }

  lemma StepIsLevel(levels: Levels, levelOf: map<nat, nat>, height: nat, topo: seq<JobId>, step: Step, l: nat, j: JobId)
    requires Represents(levels, levelOf, height) && l < height && StepOf(step, levels[l], topo)
    ensures Contains(step, j) <==> OnNamedLevel(levelOf, topo, l, j)
  {
    if NamedIn(levels[l], topo, j) {
      var v :| v in levels[l] && v < |topo| && topo[v] == j;
      assert v in levelOf && levelOf[v] == l;
    }
    if OnNamedLevel(levelOf, topo, l, j) {
      var v :| v in levelOf && levelOf[v] == l && v < |topo| && topo[v] == j;
      assert v in levels[l];
    }
  }

  /** `SteppedTaskOrdering::new`: the steps implement the machine with nothing offered, and their number is
      within Graham's bound.  `topo` is the library's topological order, absent when there is a cycle. */
  method NewStepped(deps: Deps, topo: Option<seq<JobId>>, w: nat) returns (r: Option<SteppedOrdering>)
    requires Closed(deps) && (topo.Some? ==> IsTopological(deps, topo.value))
    ensures r.None? <==> topo.None?
    ensures r.Some? ==>
              && fresh(r.value) && r.value.Valid() && r.value.width == w && r.value.spec == ReadySet(deps, {}, {})
              && Built(deps, topo.value, w, r.value.order)
              && (w > 0 ==> WithinGraham(deps, w, |r.value.order|))
  {
    if topo.None? {
      return None;
    }
    var adj := Indexed(deps, topo.value);
    IndexedIsDag(deps, topo.value);
    var reduction := Reduction(adj);
    var ordering := LexicoTopologicalSort(reduction);
    var levels, levelOf, height := AssignLevels(reduction, ordering, w);
    var steps := LevelsToSteps(levels, topo.value, levelOf, height);
    LayeredStepsImplement(deps, topo.value, w, levels, levelOf, height, steps);
    StepsAreBuilt(deps, topo.value, w, levels, levelOf, height, steps, ordering);
    if w > 0 {
      LayeredStepsWithinGraham(deps, topo.value, w, levels, levelOf, height, steps);
    }
    var stepped := new SteppedOrdering(steps, w, deps);
    return Some(stepped);
  }

  // ---------------------------------------------------------------------------------------------
  // Graph traversal
  // ---------------------------------------------------------------------------------------------

  /** Every node of a set once, in any order. */
  method NodesInSomeOrder(nodes: set<JobId>) returns (s: seq<JobId>)
    ensures Distinct(s) && forall j :: j in s <==> j in nodes
  {
    s := [];
    var rest := nodes;
    while rest != {}
      invariant rest <= nodes && Distinct(s)
      invariant forall j :: j in s <==> j in nodes && j !in rest
    {
      var j :| j in rest;
      s := s + [j];
      rest := rest - {j};
    }
  }

  datatype OfferResult = Offered | UnknownTask(task: JobId)

  /** The graph that is left: the nodes not offered back, with the incoming edges from such nodes. */
  ghost predicate GraphLeft(graph: Deps, spec: ReadySet) {
    && (forall j :: j in graph <==> j in spec.Remaining())
    && forall j :: j in graph ==> graph[j] == spec.deps[j] - spec.finished
  }

  function RemoveNode(graph: Deps, node: JobId): Deps {
    map j | j in graph && j != node :: graph[j] - {node}
  }

  /** In a graph with a topological order, while jobs remain one of them waits for nothing. */
  lemma SomeJobIsReady(deps: Deps, topo: seq<JobId>, finished: set<JobId>) returns (j: JobId)
    requires Closed(deps) && IsTopological(deps, topo) && deps.Keys - finished != {}
    ensures j in deps && j !in finished && deps[j] <= finished
  {
    var some :| some in deps.Keys - finished;
    assert some in topo;
    var p :| 0 <= p < |topo| && topo[p] == some;
    while exists q :: p < q < |topo| && topo[q] !in finished
      invariant 0 <= p < |topo| && topo[p] !in finished
      decreases |topo| - p
    {
      var q :| p < q < |topo| && topo[q] !in finished;
      p := q;
    }
    j := topo[p];
  }

  lemma NothingLeft(a: set<JobId>, b: set<JobId>)
    ensures a - b == {} <==> a <= b
  {
    if a - b == {} {
      forall x | x in a ensures x in b {
        assert x !in a - b;
      }
    }
  }

  /** The nodes first, then one incoming edge at a time. */
  method BuildGraph(deps: Deps) returns (built: Deps)
    ensures built == deps
  {
    built := map j | j in deps :: {};
    var rest := deps.Keys;
    while rest != {}
      invariant rest <= deps.Keys == built.Keys
      invariant forall j :: j in deps ==> built[j] == if j in rest then {} else deps[j]
    {
      var t :| t in rest;
      var edges := deps[t];
      while edges != {}
        invariant edges <= deps[t] && built.Keys == deps.Keys
        invariant built[t] == deps[t] - edges
        invariant forall j :: j in deps && j != t ==> built[j] == if j in rest then {} else deps[j]
      {
        var d :| d in edges;
        built := built[t := built[t] + {d}];
        edges := edges - {d};
      }
      rest := rest - {t};
    }
  }

  class GraphTraversalOrdering {
    var inUse: set<JobId>
    /** Each node left in the graph with its incoming neighbours. */
    var graph: Deps
    ghost var spec: ReadySet
    /** Evidence that the graph was found to be acyclic. */
    ghost var topo: seq<JobId>

    ghost predicate Valid()
      reads this
    {
      spec.Legal() && inUse == spec.inFlight && GraphLeft(graph, spec) && IsTopological(spec.deps, topo)
    }

    /** `create_ordering`, on a graph that has no cycle. */
    constructor (deps: Deps, ghost order: seq<JobId>)
      requires Closed(deps) && IsTopological(deps, order)
      ensures Valid() && spec == ReadySet(deps, {}, {})
    {
      var built := BuildGraph(deps);
      inUse, graph, spec, topo := {}, built, ReadySet(deps, {}, {}), order;
    }

    /** Hands out exactly the ready jobs. */
    method Poll() returns (out: seq<JobId>)
      requires Valid()
      modifies this
      ensures Valid() && old(spec).MayPoll(out) && spec == old(spec).AfterPoll(out)
      ensures forall j :: j in out <==> j in old(spec).Ready()
    {
      var ready := set j | j in graph && graph[j] == {} && j !in inUse;
      forall j ensures j in ready <==> j in spec.Ready() {
        if j in graph {
          NothingLeft(spec.deps[j], spec.finished);
        }
      }
      out := NodesInSomeOrder(ready);
      if spec.Remaining() != {} && spec.inFlight == {} {
        ghost var j := SomeJobIsReady(spec.deps, topo, spec.finished);
        assert j in out;
      }
      inUse := inUse + set j | j in out;
      spec := spec.AfterPoll(out);
    }

    method Offer(task: JobId) returns (r: OfferResult)
      requires Valid()
      modifies this
      ensures task !in old(graph) ==> r == UnknownTask(task) && Valid() && spec == old(spec) && graph == old(graph)
      ensures task in old(graph) ==> r == Offered && graph == RemoveNode(old(graph), task)
      ensures task in old(spec).inFlight ==> r == Offered && Valid() && spec == old(spec).AfterOffer(task)
    {
      if task !in graph {
        return UnknownTask(task);
      }
      if task in spec.inFlight {
        spec := spec.AfterOffer(task);
      }
      inUse := inUse - {task};
      graph := RemoveNode(graph, task);
      return Offered;
    }

    method Empty() returns (empty: bool)
      requires Valid()
      ensures empty <==> spec.Remaining() == {}
    {
      empty := |graph| == 0;
      assert graph.Keys == spec.Remaining();
    }
  }
}
