/**
  What the action of a job receives, from what its wiring names: the meaning of src/backend/job.rs and
  src/backend/funnel.rs, stated promise by promise and without the functions that put the values together.
 */
module Inputs {
  import opened Graphs
  import opened Overlap
  import opened Disjointed
  import opened Promises
  import opened Jobs
  import opened JobRun
  import opened Engine
  import opened Sequences
  import opened Wiring
  import opened Wrappers

  // ---------------------------------------------------------------------------------------------
  // Putting values together
  // ---------------------------------------------------------------------------------------------

  /** A funnel that gains a value yields it last, once. */
  lemma FunnelGainsItem(entries: seq<Entry>, s: Source, vs: seq<Data>, v: seq<Data>)
    requires |vs| == |EntryLeaves(entries)| && |v| == |SourceLeaves(s)|
    ensures |vs + v| == |EntryLeaves(entries + [Item(s)])|
    ensures FunnelValues(entries + [Item(s)], vs + v) == FunnelValues(entries, vs) + [SourceValue(s, v)]
  {
    LastEntry(entries, Item(s), vs, v);
  }

  /** A funnel that gains a collection yields its elements last, in their order. */
  lemma FunnelGainsSpread(entries: seq<Entry>, s: Source, vs: seq<Data>, v: seq<Data>, elements: seq<Data>)
    requires |vs| == |EntryLeaves(entries)| && |v| == |SourceLeaves(s)| && SourceValue(s, v) == List(elements)
    ensures |vs + v| == |EntryLeaves(entries + [Spread(s)])|
    ensures FunnelValues(entries + [Spread(s)], vs + v) == FunnelValues(entries, vs) + elements
  {
    LastEntry(entries, Spread(s), vs, v);
  }

  function Ones(leaves: seq<Leaf>): (entries: seq<Entry>)
    ensures |entries| == |leaves|
  {
    seq(|leaves|, i requires 0 <= i < |leaves| => Item(One(leaves[i])))
  }

  lemma {:induction false} OnesHoldLeaves(leaves: seq<Leaf>)
    ensures EntryLeaves(Ones(leaves)) == leaves
  {
    if leaves != [] {
      var k := |leaves| - 1;
      OnesHoldLeaves(leaves[..k]);
      assert Ones(leaves)[..k] == Ones(leaves[..k]) && leaves == leaves[..k] + [leaves[k]];
    }
  }

  lemma OnesGainItem(leaves: seq<Leaf>, leaf: Leaf)
    ensures Ones(leaves + [leaf]) == Ones(leaves) + [Item(One(leaf))]
  {
  }

  lemma OneMore(leaves: seq<Leaf>, leaf: Leaf, vs: seq<Data>, v: Data)
    requires |vs| == |leaves| && EntryLeaves(Ones(leaves)) == leaves && FunnelValues(Ones(leaves), vs) == vs
    ensures |vs + [v]| == |EntryLeaves(Ones(leaves + [leaf]))|
    ensures FunnelValues(Ones(leaves + [leaf]), vs + [v]) == vs + [v]
  {
    OnesGainItem(leaves, leaf);
    FunnelGainsItem(Ones(leaves), One(leaf), vs, [v]);
    assert SourceValue(One(leaf), [v]) == v;
  }

  lemma {:induction false} OnesYieldValues(leaves: seq<Leaf>, vs: seq<Data>)
    requires |vs| == |leaves|
    ensures EntryLeaves(Ones(leaves)) == leaves
    ensures FunnelValues(Ones(leaves), vs) == vs
  {
    OnesHoldLeaves(leaves);
    if leaves != [] {
      var k := |leaves| - 1;
      OnesYieldValues(leaves[..k], vs[..k]);
      OneMore(leaves[..k], leaves[k], vs[..k], vs[k]);
      LastApart(leaves);
      LastApart(vs);
    }
  }

  lemma LastApart<T>(s: seq<T>)
    requires s != []
    ensures s[..|s| - 1] + [s[|s| - 1]] == s
  {
  }

  /** The one poll of an input all of whose promises are ready: a promise yields its value, a tuple the values in
      the order of its parts, and a funnel of values the list of them. */
  lemma ReadyInputs(leaves: seq<Leaf>, vs: seq<Data>)
    requires |vs| == |leaves|
    ensures PollInput(Single(All(leaves)), ReadyAnswers(vs)) == Ready(Some(Tuple(vs)))
    ensures |leaves| == 1 ==> PollInput(Single(One(leaves[0])), ReadyAnswers(vs)) == Ready(Some(vs[0]))
    ensures EntryLeaves(Ones(leaves)) == leaves
    ensures PollInput(Funnel(Ones(leaves)), ReadyAnswers(vs)) == Ready(Some(List(vs)))
  {
    SinglePollAssembles(Single(All(leaves)), vs);
    if |leaves| == 1 {
      SinglePollAssembles(Single(One(leaves[0])), vs);
    }
    OnesYieldValues(leaves, vs);
    SinglePollAssembles(Funnel(Ones(leaves)), vs);
  }

  lemma SourceReadyExactly(s: Source, answers: seq<Poll<Data>>)
    requires |answers| == |SourceLeaves(s)|
    ensures PollSource(s, answers).Ready? <==> AllReady(answers)
  {
    if s.All? {
      SinglePollKeepsOrder(s.leaves, answers);
    }
  }

  lemma {:induction false} EntriesReadyExactly(entries: seq<Entry>, answers: seq<Poll<Data>>)
    requires |answers| == |EntryLeaves(entries)|
    ensures AllReady(PollEntries(entries, answers)) <==> AllReady(answers)
  {
    if entries != [] {
      var k := |entries| - 1;
      var n := |EntryLeaves(entries[..k])|;
      EntriesReadyExactly(entries[..k], answers[..n]);
      SourceReadyExactly(entries[k].source, answers[n..]);
      AllReadySplits(answers, n);
      var polled := PollEntries(entries, answers);
      AllReadySplits(polled, k);
      assert polled[..k] == PollEntries(entries[..k], answers[..n]);
      assert polled[k..] == [polled[k]] && (AllReady(polled[k..]) <==> polled[k..][0].Ready?);
    }
  }

  lemma AllReadySplits<T>(answers: seq<Poll<T>>, n: nat)
    requires n <= |answers|
    ensures AllReady(answers) <==> AllReady(answers[..n]) && AllReady(answers[n..])
  {
    if AllReady(answers[..n]) && AllReady(answers[n..]) {
      forall i | 0 <= i < |answers| ensures answers[i].Ready? {
        if i < n {
          assert answers[..n][i].Ready?;
        } else {
          assert answers[n..][i - n].Ready?;
        }
      }
    }
  }

  /** The one poll of an input is ready exactly if every promise of it is. */
  lemma InputReadyExactly(kind: InputKind, answers: seq<Poll<Data>>)
    requires |answers| == |Leaves(kind)|
    ensures PollInput(kind, answers).Ready? <==> AllReady(answers)
  {
    match kind {
      case NoInput =>
      case Single(s) => SourceReadyExactly(s, answers);
      case Funnel(entries) =>
        EntriesReadyExactly(entries, answers);
        SinglePollKeepsOrder(entries, PollEntries(entries, answers));
    }
  }

  // ---------------------------------------------------------------------------------------------
  // The steps of a job in the pool
  // ---------------------------------------------------------------------------------------------

  /** A use-once promise, or the flow's input, delivers once; polled again it panics. */
  lemma DeliversOnce(p: Plan, store: Store, leaf: Leaf)
    requires (leaf.OnceOf? || leaf.FlowIn?) && SourceIn(p.jobs.Keys * store.cells.Keys, leaf)
    requires PollLeaf(p, store, leaf).0.Got?
    ensures PollLeaf(p, PollLeaf(p, store, leaf).1, leaf).0 == Burst
  {
  }

  /** The values received so far, and whether a promise was not ready. */
  predicate AnswersAre(answers: seq<Poll<Data>>, vs: seq<Data>) {
    |answers| == |vs| && forall i :: 0 <= i < |vs| ==> answers[i] == Ready(vs[i])
  }

  /** A job asks its promises in order: a value is kept, a promise that is not ready is remembered as such, and one that
      panics crashes the job. */
  lemma AskExactly(p: Plan, s: Sys, j: JobId)
    requires WellWired(p) && Shaped(p, s) && Engine.Enabled(p, s, PollNext(j))
    ensures SourceIn(p.jobs.Keys, NextLeaf(p, s, j))
    ensures var (a, store) := PollLeaf(p, s.store, NextLeaf(p, s, j));
            var s' := Engine.Do(p, s, PollNext(j));
            && s'.store == store && s'.progress.Keys == s.progress.Keys
            && (forall k :: k in s.progress && k != j ==> s'.progress[k] == s.progress[k])
            && (a.Burst? <==> s'.progress[j] == Completed(Crashed))
            && (a.NotYet? ==> s'.progress[j] == Polling(s.progress[j].answers + [Pending]))
            && (a.Got? ==> s'.progress[j] == Polling(s.progress[j].answers + [Ready(a.value)]))
  {
    WireSource(p, Some(j), |s.progress[j].answers|);
  }

  /** Having asked all, a job fails if some promise was not ready.  Otherwise it applies its action to its input, and
      the result is the only thing that becomes visible to other jobs; if nobody receives it, nothing does. */
  lemma FinishExactly(p: Plan, s: Sys, j: JobId, vs: seq<Data>)
    requires WellWired(p) && Shaped(p, s) && Engine.Enabled(p, s, Finish(j))
    ensures var answers, s' := s.progress[j].answers, Engine.Do(p, s, Finish(j));
            && (!AllReady(answers) ==> s' == s.(progress := s.progress[j := Completed(Failed(InputNotReady))]))
            && (AnswersAre(answers, vs) ==>
                  && |vs| == |Leaves(p.jobs[j].kind)|
                  && var v := p.act(j, Assemble(p.jobs[j].kind, vs));
                     if p.jobs[j].dropped then s' == s.(progress := s.progress[j := Completed(Failed(SendError))])
                     else s'.progress == s.progress[j := Completed(Done(v))] && Sent(s.store, s'.store, j, v))
  {
    var kind, answers := p.jobs[j].kind, s.progress[j].answers;
    InputReadyExactly(kind, answers);
    if AnswersAre(answers, vs) {
      assert answers == ReadyAnswers(vs);
      SinglePollAssembles(kind, vs);
    }
  }

  /** The value is in the channel of `j`; nothing else has changed. */
  predicate Sent(before: Store, after: Store, j: JobId, v: Data) {
    && j in before.cells && j in after.cells && after.flowIn == before.flowIn
    && after.cells == before.cells[j := after.cells[j]] && after.cells[j].slot == Full(v)
    && match (before.cells[j], after.cells[j])
       case (OnceCell(_), OnceCell(_)) => true
       case (ReuseCell(_, shared), ReuseCell(_, shared')) => shared == shared'
       case (PartCell(_, buffer), PartCell(_, buffer')) => buffer == buffer'
       case (_, _) => false
  }

  // ---------------------------------------------------------------------------------------------
  // What a promise supplies
  // ---------------------------------------------------------------------------------------------

  /** The elements at the positions a range contains, in their order. */
  function Selected(items: seq<Data>, r: Range): seq<Data> {
    if items == [] then []
    else
      var k := |items| - 1;
      Selected(items[..k], r) + if Contains(r, k) then [items[k]] else []
  }

  /** The promise delivers `v` once all jobs have the outcomes they evaluate to. */
  ghost predicate Supplies(p: Plan, rank: map<JobId, nat>, leaf: Leaf, v: Data)
    requires Evaluable(p, rank)
  {
    match leaf
    case FlowIn => v == p.input
    case OnceOf(j) => j in p.jobs && Eval(p, rank, j) == Done(v)
    case ReuseOf(j, gen) => j in p.jobs && gen == p.jobs[j].gen && Eval(p, rank, j) == Done(v)
    case PartOf(j, gen, claim) =>
      && j in p.jobs && gen == p.jobs[j].gen && Eval(p, rank, j).Done?
      && SuppliesPart(Items(Eval(p, rank, j).value), claim, v)
  }

  ghost predicate SuppliesPart(items: seq<Data>, claim: Claim, v: Data) {
    match claim
    case Index(i) => i < |items| && v == items[i]
    case Slice(r) => claim.InBounds(|items|) && v == List(Selected(items, r))
  }

  /** A claim that contains an index lies in the vector exactly if all its indices do; if it has no end, exactly if
      it contains the index after the last. */
  lemma InBoundsExactly(c: Claim, n: nat, x: nat)
    requires Contains(c.Bounds(), x)
    ensures c.Bounds().end.Unbounded? ==> (c.InBounds(n) <==> Contains(c.Bounds(), n))
    ensures !c.Bounds().end.Unbounded? ==> (c.InBounds(n) <==> forall y: nat :: Contains(c.Bounds(), y) ==> y < n)
  {
    if !c.Bounds().end.Unbounded? {
      assert Contains(c.Bounds(), c.To(n) - 1);
    }
  }

  /** An index claim contains that index only. */
  lemma IndexIsOne(i: nat, x: nat)
    ensures Contains(Index(i).Bounds(), x) <==> x == i
  {
  }

  lemma {:induction false} SelectedIsSlice(items: seq<Data>, c: Claim, k: nat)
    requires c.InBounds(|items|) && k <= |items|
    ensures var lo, hi := if c.From() <= k then c.From() else k, if c.To(|items|) <= k then c.To(|items|) else k;
            Selected(items[..k], c.Bounds()) == items[lo..hi]
  {
    if k > 0 {
      assert items[..k][..k - 1] == items[..k - 1];
      SelectedIsSlice(items, c, k - 1);
      BoundsArePositions(c, |items|, k - 1);
    }
  }

  lemma PartIsSupplied(items: seq<Data>, claim: Claim, v: Data)
    ensures PartValue(claim, List(items)) == Some(v) <==> SuppliesPart(items, claim, v)
  {
    if claim.InBounds(|items|) {
      SelectedIsSlice(items, claim, |items|);
      assert items[..|items|] == items;
    }
  }

  /** The value the recursive evaluation takes for a promise is what the promise supplies. */
  lemma LeafIsSupplied(p: Plan, rank: map<JobId, nat>, leaf: Leaf, values: map<JobId, Data>, v: Data)
    requires Evaluable(p, rank) && SourceIn(p.jobs.Keys * values.Keys, leaf)
    requires forall d :: d in values && d in p.jobs ==> Eval(p, rank, d) == Done(values[d])
    ensures LeafValue(p, leaf, values) == Some(v) <==> Supplies(p, rank, leaf, v)
  {
    if leaf.PartOf? && leaf.gen == p.jobs[leaf.job].gen {
      var items := Items(values[leaf.job]);
      PartIsSupplied(items, leaf.claim, v);
      assert PartValue(leaf.claim, List(items)) == PartValue(leaf.claim, values[leaf.job]);
    }
  }

  // ---------------------------------------------------------------------------------------------
  // The outcome of a job
  // ---------------------------------------------------------------------------------------------

  ghost predicate AllProduced(p: Plan, rank: map<JobId, nat>, j: JobId)
    requires Evaluable(p, rank) && j in p.jobs
  {
    forall d :: d in p.jobs[j].deps ==> d in p.jobs && Eval(p, rank, d).Done?
  }

  ghost predicate AllSupplied(p: Plan, rank: map<JobId, nat>, leaves: seq<Leaf>, vs: seq<Data>)
    requires Evaluable(p, rank)
  {
    |vs| == |leaves| && forall i :: 0 <= i < |leaves| ==> Supplies(p, rank, leaves[i], vs[i])
  }

  lemma ProducedValues(p: Plan, rank: map<JobId, nat>, j: JobId) returns (values: map<JobId, Data>)
    requires Evaluable(p, rank) && j in p.jobs && AllProduced(p, rank, j)
    ensures values.Keys == p.jobs[j].deps && p.jobs[j].deps <= p.jobs.Keys
    ensures forall d :: d in values ==> d in p.jobs && Eval(p, rank, d) == Done(values[d])
    ensures Eval(p, rank, j) == JobOutcome(p, j, values)
  {
    values := map d | d in p.jobs[j].deps :: Eval(p, rank, d).value;
    EvalFromDependencies(p, rank, j, values);
  }

  /** A job is blocked exactly if something it depends on has produced nothing, and fails its check exactly if it
      takes input and has none, or takes none and has some. */
  lemma EvalChecks(p: Plan, rank: map<JobId, nat>, j: JobId)
    requires Evaluable(p, rank) && j in p.jobs
    ensures Eval(p, rank, j) == Blocked <==> !AllProduced(p, rank, j)
    ensures AllProduced(p, rank, j) ==>
              var job := p.jobs[j];
              && (Eval(p, rank, j) == Failed(NoInputSet) <==> !job.flavor.FlavorNone? && job.kind.NoInput?)
              && (Eval(p, rank, j) == Failed(UnexpectedInput) <==> job.flavor.FlavorNone? && !job.kind.NoInput?)
              && Eval(p, rank, j) != Failed(InputNotReady)
  {
    if AllProduced(p, rank, j) {
      var values := ProducedValues(p, rank, j);
    } else {
      MissingBlocks(p, rank, j);
    }
  }

  lemma MissingBlocks(p: Plan, rank: map<JobId, nat>, j: JobId)
    requires Evaluable(p, rank) && j in p.jobs && !AllProduced(p, rank, j)
    ensures Eval(p, rank, j) == Blocked
  {
    var deps := DepsOf(p.jobs)[j];
    assert deps <= DepsOf(p.jobs).Keys;
    var outcomes := map d | d in deps :: Eval(p, rank, d);
    EvalCombines(p, rank, j, outcomes);
  }

  /** A job whose input is all supplied applies its action to it, and sends the value unless nobody receives it. */
  lemma EvalApplies(p: Plan, rank: map<JobId, nat>, j: JobId, vs: seq<Data>)
    requires Evaluable(p, rank) && j in p.jobs && AllProduced(p, rank, j)
    requires p.jobs[j].flavor.FlavorNone? <==> p.jobs[j].kind.NoInput?
    requires AllSupplied(p, rank, Leaves(p.jobs[j].kind), vs)
    ensures Eval(p, rank, j) ==
            if p.jobs[j].dropped then Failed(SendError) else Done(p.act(j, Assemble(p.jobs[j].kind, vs)))
  {
    var values := ProducedValues(p, rank, j);
    var leaves := Leaves(p.jobs[j].kind);
    assert forall i :: 0 <= i < |leaves| ==> SourceIn(p.jobs[j].deps, leaves[i]);
    var inputs := LeafValues(p, leaves, values);
    forall i | 0 <= i < |leaves| ensures inputs[i] == Some(vs[i]) {
      LeafIsSupplied(p, rank, leaves[i], values, vs[i]);
    }
    assert AllPresent(inputs) && Unwrap(inputs) == vs;
  }

  /** A job crashes exactly if some promise of its input supplies nothing. */
  lemma EvalCrashes(p: Plan, rank: map<JobId, nat>, j: JobId)
    requires Evaluable(p, rank) && j in p.jobs && AllProduced(p, rank, j)
    requires p.jobs[j].flavor.FlavorNone? <==> p.jobs[j].kind.NoInput?
    ensures Eval(p, rank, j) == Crashed <==> forall vs :: !AllSupplied(p, rank, Leaves(p.jobs[j].kind), vs)
  {
    var values := ProducedValues(p, rank, j);
    var leaves := Leaves(p.jobs[j].kind);
    assert forall i :: 0 <= i < |leaves| ==> SourceIn(p.jobs[j].deps, leaves[i]);
    var inputs := LeafValues(p, leaves, values);
    if AllPresent(inputs) {
      var vs := Unwrap(inputs);
      forall i | 0 <= i < |leaves| ensures Supplies(p, rank, leaves[i], vs[i]) {
        LeafIsSupplied(p, rank, leaves[i], values, vs[i]);
      }
      assert AllSupplied(p, rank, leaves, vs);
    } else {
      forall vs ensures !AllSupplied(p, rank, leaves, vs) {
        if AllSupplied(p, rank, leaves, vs) {
          forall i | 0 <= i < |leaves| ensures inputs[i].Some? {
            LeafIsSupplied(p, rank, leaves[i], values, vs[i]);
          }
        }
      }
    }
  }

  /** The action gets the value of a single promise, the tuple of a tuple's values in the order of its parts, the list
      of a funnel's values, or nothing. */
  lemma EvalOfInputs(p: Plan, rank: map<JobId, nat>, j: JobId, leaves: seq<Leaf>, vs: seq<Data>)
    requires Evaluable(p, rank) && j in p.jobs && AllProduced(p, rank, j) && !p.jobs[j].dropped
    requires p.jobs[j].flavor.FlavorNone? <==> p.jobs[j].kind.NoInput?
    requires AllSupplied(p, rank, leaves, vs)
    ensures p.jobs[j].kind == NoInput ==> Eval(p, rank, j) == Done(p.act(j, None))
    ensures |leaves| == 1 && p.jobs[j].kind == Single(One(leaves[0])) ==>
              Eval(p, rank, j) == Done(p.act(j, Some(vs[0])))
    ensures p.jobs[j].kind == Single(All(leaves)) ==> Eval(p, rank, j) == Done(p.act(j, Some(Tuple(vs))))
    ensures p.jobs[j].kind == Funnel(Ones(leaves)) ==> Eval(p, rank, j) == Done(p.act(j, Some(List(vs))))
  {
    var kind := p.jobs[j].kind;
    OnesYieldValues(leaves, vs);
    if kind == NoInput {
      EvalApplies(p, rank, j, []);
    } else if kind == Single(All(leaves)) || kind == Funnel(Ones(leaves))
              || (|leaves| == 1 && kind == Single(One(leaves[0]))) {
      assert Leaves(kind) == leaves;
      EvalApplies(p, rank, j, vs);
    }
  }

  // ---------------------------------------------------------------------------------------------
  // What a wiring call gives the action
  // ---------------------------------------------------------------------------------------------

  /** `vs` are the values that the jobs `js` evaluate to. */
  ghost predicate Yield(p: Plan, rank: map<JobId, nat>, js: seq<JobId>, vs: seq<Data>)
    requires Evaluable(p, rank)
  {
    |vs| == |js| && forall i :: 0 <= i < |js| ==> js[i] in p.jobs && Eval(p, rank, js[i]) == Done(vs[i])
  }

  lemma PromisesSupply(p: Plan, rank: map<JobId, nat>, before: JobMap, js: seq<JobId>, leaves: seq<Leaf>, vs: seq<Data>)
    requires Evaluable(p, rank) && Yield(p, rank, js, vs)
    requires before.Keys == p.jobs.Keys && forall j :: j in before ==> p.jobs[j].gen == before[j].gen
    requires PromisesOf(before, js, leaves) && forall i :: 0 <= i < |js| ==> js[i] in before && Usable(before[js[i]])
    ensures AllSupplied(p, rank, leaves, vs)
  {
    forall i | 0 <= i < |leaves| ensures Supplies(p, rank, leaves[i], vs[i]) {
      assert PromiseOf(before, js[i], leaves[i]) && Usable(before[js[i]]);
    }
  }

  /** A job given a tuple applies its action to the tuple of the values of the outputs, in the order of the call. */
  lemma TupleReachesAction(n: Net, c: JobId, js: seq<JobId>, rank: map<JobId, nat>, vs: seq<Data>)
    requires Allowed(n, DoTuple(c, js)) && n.plan.jobs[c].flavor.FlavorSingle? && !n.plan.jobs[c].kind.Funnel?
    requires forall i :: 0 <= i < |js| ==> Usable(n.plan.jobs[js[i]])
    requires var p := Perform(n, DoTuple(c, js)).0.plan;
             && Evaluable(p, rank) && c in p.jobs && !p.jobs[c].dropped
             && AllProduced(p, rank, c) && Yield(p, rank, js, vs)
    ensures Eval(Perform(n, DoTuple(c, js)).0.plan, rank, c) == Done(n.plan.act(c, Some(Tuple(vs))))
  {
    var p := Perform(n, DoTuple(c, js)).0.plan;
    UseTupleIsRight(n, c, js);
    var leaves :| PromisesOf(n.plan.jobs, js, leaves) && Gains(n.plan.jobs[c], p.jobs[c], All(leaves));
    PromisesSupply(p, rank, n.plan.jobs, js, leaves, vs);
    EvalOfInputs(p, rank, c, leaves, vs);
  }

  /** A single input given a whole output applies its action to the value of that output. */
  lemma OutputReachesAction(n: Net, c: JobId, j: JobId, rank: map<JobId, nat>, v: Data)
    requires Allowed(n, DoUse(c, j)) && n.plan.jobs[c].flavor.FlavorSingle? && !n.plan.jobs[c].kind.Funnel?
    requires Usable(n.plan.jobs[j])
    requires var p := Perform(n, DoUse(c, j)).0.plan;
             && Evaluable(p, rank) && c in p.jobs && !p.jobs[c].dropped
             && AllProduced(p, rank, c) && Yield(p, rank, [j], [v])
    ensures Eval(Perform(n, DoUse(c, j)).0.plan, rank, c) == Done(n.plan.act(c, Some(v)))
  {
    var p := Perform(n, DoUse(c, j)).0.plan;
    UseOutputIsRight(n, c, j);
    var leaf :| PromiseOf(n.plan.jobs, j, leaf) && Gains(n.plan.jobs[c], p.jobs[c], One(leaf));
    PromisesSupply(p, rank, n.plan.jobs, [j], [leaf], [v]);
    EvalOfInputs(p, rank, c, [leaf], [v]);
  }

  /** Gaining a source, a funnel yields what it did and then the one value of the source. */
  lemma FunnelGains(before: Job, after: Job, s: Source, vs: seq<Data>, items: seq<Data>, v: seq<Data>)
    requires before.kind.Funnel? && Gains(before, after, s)
    requires |vs| == |Leaves(before.kind)| && Assemble(before.kind, vs) == Some(List(items)) && |v| == |SourceLeaves(s)|
    ensures Leaves(after.kind) == Leaves(before.kind) + SourceLeaves(s)
    ensures s.One? ==> Assemble(after.kind, vs + v) == Some(List(items + v))
    ensures s.All? ==> Assemble(after.kind, vs + v) == Some(List(items + [Tuple(v)]))
  {
    LastLeaves(before.kind.entries, Item(s));
    FunnelGainsItem(before.kind.entries, s, vs, v);
    if s.One? {
      assert v == [v[0]];
    }
  }

  /** A funnel given a whole output yields what it did and then the value of that output; given a tuple, then the
      tuple. */
  lemma CallsGrowFunnel(n: Net, c: JobId, js: seq<JobId>, vs: seq<Data>, items: seq<Data>, v: seq<Data>)
    requires Allowed(n, DoTuple(c, js)) && n.plan.jobs[c].flavor.FlavorFunnel? && n.plan.jobs[c].kind.Funnel?
    requires (forall i :: 0 <= i < |js| ==> Usable(n.plan.jobs[js[i]])) && |v| == |js|
    requires |vs| == |Leaves(n.plan.jobs[c].kind)| && Assemble(n.plan.jobs[c].kind, vs) == Some(List(items))
    ensures var kind := Perform(n, DoTuple(c, js)).0.plan.jobs[c].kind;
            |vs + v| == |Leaves(kind)| && Assemble(kind, vs + v) == Some(List(items + [Tuple(v)]))
    ensures |js| == 1 ==>
              var kind := Perform(n, DoUse(c, js[0])).0.plan.jobs[c].kind;
              |vs + v| == |Leaves(kind)| && Assemble(kind, vs + v) == Some(List(items + v))
  {
    var job := n.plan.jobs[c];
    UseTupleIsRight(n, c, js);
    var tupled := Perform(n, DoTuple(c, js)).0.plan.jobs[c];
    var leaves :| PromisesOf(n.plan.jobs, js, leaves) && Gains(job, tupled, All(leaves));
    FunnelGains(job, tupled, All(leaves), vs, items, v);
    if |js| == 1 {
      UseOutputIsRight(n, c, js[0]);
      var used := Perform(n, DoUse(c, js[0])).0.plan.jobs[c];
      var leaf :| PromiseOf(n.plan.jobs, js[0], leaf) && Gains(job, used, One(leaf));
      FunnelGains(job, used, One(leaf), vs, items, v);
    }
  }

  /** A collection wired to a job that is then made a funnel yields its elements. */
  lemma FunnelOfCollection(n: Net, c: JobId, s: Source, v: seq<Data>, elements: seq<Data>)
    requires c in n.plan.jobs && n.plan.jobs[c].flavor.FlavorSingle? && n.plan.jobs[c].kind == Single(s)
    requires |v| == |SourceLeaves(s)| && Assemble(Single(s), v) == Some(List(elements))
    ensures var kind := Perform(n, DoFunnel(c)).0.plan.jobs[c].kind;
            Leaves(kind) == SourceLeaves(s) && Assemble(kind, v) == Some(List(elements))
  {
    LastLeaves([], Spread(s));
    FunnelGainsSpread([], s, [], v, elements);
    assert [] + [Spread(s)] == [Spread(s)] && [] + v == v && [] + elements == elements;
  }
}
