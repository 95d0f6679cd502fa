/**
  Promises that are thrown away while a flow is wired, and the jobs whose outputs are lost with them: after
  src/backend/job.rs, where assigning an input drops what it held before, and `FlowBackendOutput::set_source`.
 */
module Dropping {
  import opened Graphs
  import opened Promises
  import opened Overlap
  import opened Disjointed
  import opened Jobs
  import opened Engine
  import opened Sequences
  import opened Wiring
  import opened Wrappers

  // ---------------------------------------------------------------------------------------------
  // What a dropped promise means
  // ---------------------------------------------------------------------------------------------

  function Undropped(p: Plan, j: JobId): Plan
    requires j in p.jobs
  {
    p.(jobs := p.jobs[j := p.jobs[j].(dropped := false)])
  }

  /** A job fails to send exactly if its promise was dropped and it would otherwise produce an output. */
  lemma SendFailsExactly(p: Plan, j: JobId, outcomes: map<JobId, Outcome>)
    requires j in p.jobs && p.jobs[j].deps <= p.jobs.Keys * outcomes.Keys && SourcesAreDependencies(p.jobs)
    ensures SourcesAreDependencies(Undropped(p, j).jobs)
    ensures Combine(p, j, outcomes) == Failed(SendError) <==>
              p.jobs[j].dropped && Combine(Undropped(p, j), j, outcomes).Done?
  {
    var q := Undropped(p, j);
    SameSources(p.jobs, q.jobs);
    var deps := p.jobs[j].deps;
    if forall d :: d in deps ==> outcomes[d].Done? {
      OutcomeWithoutReceiver(p, j, Jobs.Produced(outcomes, deps));
    }
  }

  lemma OutcomeWithoutReceiver(p: Plan, j: JobId, values: map<JobId, Data>)
    requires j in p.jobs && p.jobs[j].deps <= p.jobs.Keys * values.Keys
    requires SourcesAreDependencies(p.jobs) && SourcesAreDependencies(Undropped(p, j).jobs)
    ensures JobOutcome(p, j, values) == Failed(SendError) <==>
              p.jobs[j].dropped && JobOutcome(Undropped(p, j), j, values).Done?
  {
    var q, leaves := Undropped(p, j), Leaves(p.jobs[j].kind);
    assert forall i :: 0 <= i < |leaves| ==> SourceIn(p.jobs[j].deps, leaves[i]);
    forall i | 0 <= i < |leaves| ensures LeafValue(p, leaves[i], values) == LeafValue(q, leaves[i], values) {
    }
    assert LeafValues(p, leaves, values) == LeafValues(q, leaves, values);
  }

  /** A job whose promise was dropped never produces its output. */
  lemma DroppedNeverDone(p: Plan, rank: map<JobId, nat>, j: JobId)
    requires Evaluable(p, rank) && j in p.jobs && p.jobs[j].dropped
    ensures !Eval(p, rank, j).Done?
  {
    var deps := DepsOf(p.jobs)[j];
    assert deps <= DepsOf(p.jobs).Keys;
    var outcomes := map d | d in deps :: Eval(p, rank, d);
    EvalCombines(p, rank, j, outcomes);
    if forall d :: d in deps ==> outcomes[d].Done? {
      OutcomeNeverDone(p, j, Jobs.Produced(outcomes, deps));
    }
  }

  lemma OutcomeNeverDone(p: Plan, j: JobId, values: map<JobId, Data>)
    requires j in p.jobs && p.jobs[j].deps <= p.jobs.Keys * values.Keys && SourcesAreDependencies(p.jobs)
    requires p.jobs[j].dropped
    ensures !JobOutcome(p, j, values).Done?
  {
  }

  // ---------------------------------------------------------------------------------------------
  // Which calls drop a promise
  // ---------------------------------------------------------------------------------------------

  /** `j` is a use-once output that comes before every unusable one. */
  ghost predicate TakenBefore(jobs: JobMap, js: seq<JobId>, j: JobId)
    requires forall k :: k in js ==> k in jobs
  {
    j in js && jobs[j].output == OnceOut(true)
    && exists k: nat :: k < |js| && js[k] == j && UsableUpTo(jobs, js, k)
  }

  ghost predicate UsableUpTo(jobs: JobMap, js: seq<JobId>, k: nat)
    requires k <= |js| && forall j :: j in js ==> j in jobs
  {
    forall m :: 0 <= m < k ==> Usable(jobs[js[m]])
  }

  /** The calls that throw away the promise of `j`, as a caller can tell beforehand: an input that already holds
      it gets a source that can be used, a tuple takes it and then meets an output that cannot be used, or it is
      offered to a flow that has an output. */
  ghost predicate Drops(n: Net, op: WireOp, j: JobId)
    requires Allowed(n, op)
  {
    var jobs := n.plan.jobs;
    match op
    case DoUse(c, k) => !jobs[c].flavor.FlavorNone? && Usable(jobs[k]) && OnceOf(j) in Displaced(jobs[c])
    case DoTuple(c, js) =>
      && !jobs[c].flavor.FlavorNone?
      && if UsableUpTo(jobs, js, |js|) then OnceOf(j) in Displaced(jobs[c]) else TakenBefore(jobs, js, j)
    case DoFlowInput(c) => !jobs[c].flavor.FlavorNone? && !n.inputTaken && OnceOf(j) in Displaced(jobs[c])
    case DoFlowOutput(k) => k == j && jobs[j].output == OnceOut(true) && n.plan.output.Some?
    case _ => false
  }

  lemma GiveDrops(jobs: JobMap, c: JobId, s: Source, deps: set<JobId>, j: JobId)
    requires c in jobs && j in jobs
    ensures Give(jobs, c, s, deps).Keys == jobs.Keys
    ensures Give(jobs, c, s, deps)[j].output == jobs[j].output
    ensures Give(jobs, c, s, deps)[j].dropped <==> jobs[j].dropped || OnceOf(j) in Displaced(jobs[c])
  {
  }

  /** What has been taken from the outputs `js` of `jobs`; `failed`: one of them could not be used. */
  ghost predicate TakenExactly(jobs: JobMap, js: seq<JobId>, taken: JobMap, leaves: seq<Leaf>, failed: bool)
    requires (forall j :: j in js ==> j in jobs) && taken.Keys == jobs.Keys
  {
    && (failed <==> !UsableUpTo(jobs, js, |js|))
    && (forall j :: OnceOf(j) in leaves <==> TakenBefore(jobs, js, j))
    && (forall j :: j in jobs ==> TakenFrom(jobs[j], taken[j], OnceOf(j) in leaves))
  }

  lemma {:induction false} TakeAllExactly(jobs: JobMap, js: seq<JobId>)
    requires Distinct(js) && forall j :: j in js ==> j in jobs
    ensures var (taken, leaves, error) := TakeAll(jobs, js); TakenExactly(jobs, js, taken, leaves, error.Some?)
  {
    if js != [] {
      var k := |js| - 1;
      var rest, last := js[..k], js[k];
      assert js == rest + [last] && last !in rest;
      TakeAllExactly(jobs, rest);
      var (taken, leaves, error) := TakeAll(jobs, rest);
      if error.Some? {
        FailedStaysFailed(jobs, rest, last, taken, leaves);
      } else {
        OneMoreTaken(jobs, rest, last, taken, leaves);
      }
    }
  }

  lemma FailedStaysFailed(jobs: JobMap, rest: seq<JobId>, last: JobId, taken: JobMap, leaves: seq<Leaf>)
    requires (forall k :: k in rest ==> k in jobs) && last in jobs && last !in rest && taken.Keys == jobs.Keys
    requires TakenExactly(jobs, rest, taken, leaves, true)
    ensures TakenExactly(jobs, rest + [last], taken, leaves, true)
  {
    TakenBeforeExtends(jobs, rest, last);
  }

  lemma OneMoreTaken(jobs: JobMap, rest: seq<JobId>, last: JobId, taken: JobMap, leaves: seq<Leaf>)
    requires (forall k :: k in rest ==> k in jobs) && last in jobs && last !in rest && taken.Keys == jobs.Keys
    requires TakenExactly(jobs, rest, taken, leaves, false)
    ensures match taken[last].output
            case OnceOut(true) => TakenExactly(jobs, rest + [last], Take(taken, last), leaves + [OnceOf(last)], false)
            case ReusableOut =>
              TakenExactly(jobs, rest + [last], taken, leaves + [ReuseOf(last, taken[last].gen)], false)
            case _ => TakenExactly(jobs, rest + [last], taken, leaves, true)
  {
    TakenBeforeExtends(jobs, rest, last);
    assert !TakenBefore(jobs, rest, last);
    assert TakenFrom(jobs[last], taken[last], false);
  }

  lemma TakenBeforeExtends(jobs: JobMap, rest: seq<JobId>, last: JobId)
    requires (forall k :: k in rest ==> k in jobs) && last in jobs && last !in rest
    ensures var js := rest + [last];
            && (UsableUpTo(jobs, js, |js|) <==> UsableUpTo(jobs, rest, |rest|) && Usable(jobs[last]))
            && (forall j :: j != last ==> (TakenBefore(jobs, rest, j) <==> TakenBefore(jobs, js, j)))
            && (TakenBefore(jobs, js, last) <==>
                jobs[last].output == OnceOut(true) && UsableUpTo(jobs, rest, |rest|))
  {
    var js := rest + [last];
    assert forall m :: 0 <= m < |rest| ==> js[m] == rest[m];
    forall m: nat | m <= |rest| ensures UsableUpTo(jobs, rest, m) <==> UsableUpTo(jobs, js, m) {
      assert UsableUpTo(jobs, js, m) ==> forall k :: 0 <= k < m ==> Usable(jobs[js[k]]);
    }
    forall j | j != last ensures TakenBefore(jobs, rest, j) <==> TakenBefore(jobs, js, j) {
      TakenBeforeLast(jobs, rest, last, j);
    }
    assert js[|rest|] == last;
  }

  lemma TakenBeforeLast(jobs: JobMap, rest: seq<JobId>, last: JobId, j: JobId)
    requires (forall k :: k in rest ==> k in jobs) && last in jobs && j != last
    ensures TakenBefore(jobs, rest, j) <==> TakenBefore(jobs, rest + [last], j)
  {
    var js := rest + [last];
    if TakenBefore(jobs, rest, j) {
      var k: nat :| k < |rest| && rest[k] == j && UsableUpTo(jobs, rest, k);
      assert js[k] == j && UsableUpTo(jobs, js, k);
    }
    if TakenBefore(jobs, js, j) {
      var k: nat :| k < |js| && js[k] == j && UsableUpTo(jobs, js, k);
      assert k < |rest| && rest[k] == j;
      forall m | 0 <= m < k ensures Usable(jobs[rest[m]]) {
        assert js[m] == rest[m];
      }
    }
  }

  /** A job's output before and after promises are taken. */
  predicate TakenFrom(before: Job, after: Job, taken: bool) {
    after == if taken then before.(output := OnceOut(false)) else before
  }

  /** A wiring call drops a job's promise exactly when `Drops` says so, and no call undoes it. */
  lemma PerformDrops(n: Net, op: WireOp, j: JobId)
    requires Allowed(n, op) && j in n.plan.jobs
    ensures j in Perform(n, op).0.plan.jobs
    ensures Perform(n, op).0.plan.jobs[j].dropped <==> n.plan.jobs[j].dropped || Drops(n, op, j)
  {
    var jobs := n.plan.jobs;
    match op {
      case DoUse(c, k) =>
        if !jobs[c].flavor.FlavorNone? && jobs[k].output == OnceOut(true) {
          GiveDrops(Take(jobs, k), c, One(OnceOf(k)), {k}, j);
        }
      case DoTuple(c, js) => TupleDrops(n, c, js, j);
      case DoPart(c, k, claim) => PartDropsNothing(n, c, k, claim, j);
      case DoFlowInput(c) => GiveDrops(jobs, c, One(FlowIn), {}, j);
      case _ =>
    }
  }

  lemma TupleDrops(n: Net, c: JobId, js: seq<JobId>, j: JobId)
    requires Allowed(n, DoTuple(c, js)) && j in n.plan.jobs
    ensures j in UseTuple(n, c, js).0.plan.jobs
    ensures UseTuple(n, c, js).0.plan.jobs[j].dropped <==> n.plan.jobs[j].dropped || Drops(n, DoTuple(c, js), j)
  {
    TakeAllExactly(n.plan.jobs, js);
    var (taken, leaves, error) := TakeAll(n.plan.jobs, js);
    assert TakenFrom(n.plan.jobs[j], taken[j], OnceOf(j) in leaves);
    assert TakenFrom(n.plan.jobs[c], taken[c], OnceOf(c) in leaves);
    if error.None? {
      GiveDrops(taken, c, All(leaves), (set k | k in js), j);
    }
  }

  lemma PartDropsNothing(n: Net, c: JobId, k: JobId, claim: Claim, j: JobId)
    requires Allowed(n, DoPart(c, k, claim)) && j in n.plan.jobs
    ensures j in UsePart(n, c, k, claim).0.plan.jobs
    ensures UsePart(n, c, k, claim).0.plan.jobs[j].dropped == n.plan.jobs[j].dropped
  {
  }

  // ---------------------------------------------------------------------------------------------
  // Which jobs of a built flow have lost their output
  // ---------------------------------------------------------------------------------------------

  ghost predicate Wired(p: Plan, leaf: Leaf) {
    exists c, i: nat :: IsWire(p, c, i) && Wire(p, c, i) == leaf
  }

  /** A use-once promise that has been taken and not dropped is wired. */
  ghost predicate Accounted(n: Net) {
    forall j :: j in n.plan.jobs && InUse(n.plan.jobs[j]) ==> Wired(n.plan, OnceOf(j))
  }

  predicate InUse(job: Job) {
    job.output == OnceOut(false) && !job.dropped
  }

  lemma WiredAt(p: Plan, leaf: Leaf, c: Option<JobId>, i: nat)
    requires IsWire(p, c, i) && Wire(p, c, i) == leaf
    ensures Wired(p, leaf)
  {
  }

  lemma AddedIsWired(p: Plan, p': Plan, c: Option<JobId>, kept: nat, added: seq<Leaf>, leaf: Leaf)
    requires Extends(p, p', c, kept, added) && leaf in added
    ensures Wired(p', leaf)
  {
    var i: nat :| i < |added| && added[i] == leaf;
    WiredAt(p', leaf, c, kept + i);
  }

  lemma GivenIsWired(p: Plan, jobs: JobMap, c: JobId, s: Source, deps: set<JobId>, leaf: Leaf)
    requires SameInputs(p.jobs, jobs) && c in jobs && leaf in SourceLeaves(s)
    ensures Wired(p.(jobs := Give(jobs, c, s, deps)), leaf)
  {
    GiveExtends(p, jobs, c, s, deps);
    AddedIsWired(p, p.(jobs := Give(jobs, c, s, deps)), Some(c), Kept(jobs[c]), SourceLeaves(s), leaf);
  }

  lemma KeptIsWired(p: Plan, jobs: JobMap, c: JobId, s: Source, deps: set<JobId>, leaf: Leaf)
    requires SameInputs(p.jobs, jobs) && c in jobs && Wired(p, leaf) && leaf !in Displaced(jobs[c])
    ensures Wired(p.(jobs := Give(jobs, c, s, deps)), leaf)
  {
    GiveExtends(p, jobs, c, s, deps);
    var d, i: nat :| IsWire(p, d, i) && Wire(p, d, i) == leaf;
    var p' := p.(jobs := Give(jobs, c, s, deps));
    if d == Some(c) {
      assert Wires(p, d)[i] in Leaves(jobs[c].kind);
      assert Wires(p', d)[i] == Wires(p, d)[i];
    } else {
      assert Wires(p', d) == Wires(p, d);
    }
    WiredAt(p', leaf, d, i);
  }

  /** `n1` is `n` with promises taken, each of which is in the source given. */
  lemma GiveKeepsAccounted(n: Net, n1: Net, c: JobId, s: Source, deps: set<JobId>)
    requires SameInputs(n.plan.jobs, n1.plan.jobs) && n.plan.output == n1.plan.output && c in n.plan.jobs
    requires forall j :: j in n1.plan.jobs && InUse(n1.plan.jobs[j]) ==>
                          Wired(n.plan, OnceOf(j)) || OnceOf(j) in SourceLeaves(s)
    ensures Accounted(n1.WithJobs(Give(n1.plan.jobs, c, s, deps)))
  {
    var jobs := n1.plan.jobs;
    var n' := n1.WithJobs(Give(jobs, c, s, deps));
    forall j | j in n'.plan.jobs && InUse(n'.plan.jobs[j]) ensures Wired(n'.plan, OnceOf(j)) {
      GiveDrops(jobs, c, s, deps, j);
      if OnceOf(j) in SourceLeaves(s) {
        GivenIsWired(n1.plan, jobs, c, s, deps, OnceOf(j));
      } else {
        SameWired(n.plan, n1.plan, OnceOf(j));
        KeptIsWired(n1.plan, jobs, c, s, deps, OnceOf(j));
      }
    }
  }

  /** Outputs and dependencies do not matter to what is wired. */
  lemma SameWired(p: Plan, p': Plan, leaf: Leaf)
    requires Wired(p, leaf) && p.jobs.Keys <= p'.jobs.Keys
    requires forall j :: j in p.jobs ==> Leaves(p'.jobs[j].kind) == Leaves(p.jobs[j].kind)
    requires p'.output == p.output || (p.output.None? && p'.output.Some?)
    ensures Wired(p', leaf)
  {
    var c, i: nat :| IsWire(p, c, i) && Wire(p, c, i) == leaf;
    WiredAt(p', leaf, c, i);
  }

  /** A call that changes no wiring takes no promise, or drops the one it takes. */
  lemma NothingNewInUse(n: Net, n': Net)
    requires Accounted(n) && n.plan.jobs.Keys <= n'.plan.jobs.Keys && n'.plan.output == n.plan.output
    requires forall j :: j in n.plan.jobs ==> Leaves(n'.plan.jobs[j].kind) == Leaves(n.plan.jobs[j].kind)
    requires forall j :: j in n'.plan.jobs && InUse(n'.plan.jobs[j]) ==> j in n.plan.jobs && InUse(n.plan.jobs[j])
    ensures Accounted(n')
  {
    forall j | j in n'.plan.jobs && InUse(n'.plan.jobs[j]) ensures Wired(n'.plan, OnceOf(j)) {
      SameWired(n.plan, n'.plan, OnceOf(j));
    }
  }

  lemma UseOutputKeepsAccounted(n: Net, c: JobId, k: JobId)
    requires Accounted(n) && Allowed(n, DoUse(c, k))
    ensures Accounted(UseOutput(n, c, k).0)
  {
    var jobs := n.plan.jobs;
    if jobs[c].flavor.FlavorNone? {
    } else {
      match jobs[k].output {
        case DisjointOut(_) =>
        case ReusableOut => GiveKeepsAccounted(n, n, c, One(ReuseOf(k, jobs[k].gen)), {k});
        case OnceOut(true) =>
          assert OnceOf(k) in SourceLeaves(One(OnceOf(k)));
          GiveKeepsAccounted(n, n.WithJobs(Take(jobs, k)), c, One(OnceOf(k)), {k});
        case OnceOut(false) => NothingNewInUse(n, UseOutput(n, c, k).0);
      }
    }
  }

  lemma TakenInUse(jobs: JobMap, js: seq<JobId>, j: JobId)
    requires Distinct(js) && (forall k :: k in js ==> k in jobs) && j in jobs
    ensures var (taken, leaves, _) := TakeAll(jobs, js); InUse(taken[j]) ==> InUse(jobs[j]) || OnceOf(j) in leaves
  {
    TakeAllExactly(jobs, js);
    var (taken, leaves, _) := TakeAll(jobs, js);
    assert TakenFrom(jobs[j], taken[j], OnceOf(j) in leaves);
  }

  lemma TakingKeepsInputs(jobs: JobMap, js: seq<JobId>)
    requires Distinct(js) && forall k :: k in js ==> k in jobs
    ensures SameInputs(jobs, TakeAll(jobs, js).0)
  {
    TakeAllExactly(jobs, js);
    var (taken, leaves, _) := TakeAll(jobs, js);
    forall j | j in jobs
      ensures jobs[j].kind == taken[j].kind && jobs[j].deps == taken[j].deps && jobs[j].flavor == taken[j].flavor
    {
      assert TakenFrom(jobs[j], taken[j], OnceOf(j) in leaves);
    }
  }

  lemma UseTupleKeepsAccounted(n: Net, c: JobId, js: seq<JobId>)
    requires Accounted(n) && Allowed(n, DoTuple(c, js))
    ensures Accounted(UseTuple(n, c, js).0)
  {
    var (taken, leaves, error) := TakeAll(n.plan.jobs, js);
    TakingKeepsInputs(n.plan.jobs, js);
    forall j | j in taken && InUse(taken[j]) ensures InUse(n.plan.jobs[j]) || OnceOf(j) in leaves {
      TakenInUse(n.plan.jobs, js, j);
    }
    if n.plan.jobs[c].flavor.FlavorNone? {
    } else if error.Some? {
      NothingNewInUse(n, n.WithJobs(DropAll(taken, leaves)));
    } else {
      GiveKeepsAccounted(n, n.WithJobs(taken), c, All(leaves), set j | j in js);
    }
  }

  lemma UsePartKeepsAccounted(n: Net, c: JobId, k: JobId, claim: Claim)
    requires Accounted(n) && Allowed(n, DoPart(c, k, claim))
    ensures Accounted(UsePart(n, c, k, claim).0)
  {
    var jobs := n.plan.jobs;
    if jobs[k].output.DisjointOut? && !AnyOverlap(jobs[k].output.bounds, claim.Bounds()) {
      var n1 := n.WithJobs(jobs[k := jobs[k].(output := DisjointOut(Accept(jobs[k].output.bounds, claim.Bounds())))]);
      if jobs[c].flavor.FlavorNone? || jobs[c].kind.Single? {
        NothingNewInUse(n, n1);
      } else {
        GiveKeepsAccounted(n, n1, c, One(PartOf(k, jobs[k].gen, claim)), {k});
      }
    }
  }

  lemma SetFlowOutputKeepsAccounted(n: Net, k: JobId)
    requires Accounted(n) && Allowed(n, DoFlowOutput(k))
    ensures Accounted(SetFlowOutput(n, k).0)
  {
    var n' := SetFlowOutput(n, k).0;
    if n.plan.output.Some? {
      NothingNewInUse(n, n');
    } else {
      forall j | j in n'.plan.jobs && InUse(n'.plan.jobs[j]) ensures Wired(n'.plan, OnceOf(j)) {
        if InUse(n.plan.jobs[j]) {
          SameWired(n.plan, n'.plan, OnceOf(j));
        } else {
          WiredAt(n'.plan, OnceOf(j), None, 0);
        }
      }
    }
  }

  lemma MakeFunnelKeepsAccounted(n: Net, c: JobId)
    requires Accounted(n) && JobsRight(n.plan.jobs) && Allowed(n, DoFunnel(c))
    ensures Accounted(MakeFunnel(n, c).0)
  {
    if n.plan.jobs[c].flavor.FlavorSingle? {
      assert JobRight(n.plan.jobs[c]);
      FunnelKeepsLeaves(n.plan.jobs[c]);
      NothingNewInUse(n, MakeFunnel(n, c).0);
    }
  }

  lemma PerformKeepsAccounted(n: Net, op: WireOp)
    requires Accounted(n) && JobsRight(n.plan.jobs) && Allowed(n, op)
    ensures Accounted(Perform(n, op).0)
  {
    match op
    case DoUse(c, k) => UseOutputKeepsAccounted(n, c, k);
    case DoTuple(c, js) => UseTupleKeepsAccounted(n, c, js);
    case DoPart(c, k, claim) => UsePartKeepsAccounted(n, c, k, claim);
    case DoFlowInput(c) =>
      if !n.plan.jobs[c].flavor.FlavorNone? && !n.inputTaken {
        GiveKeepsAccounted(n, n.(inputTaken := true), c, One(FlowIn), {});
      }
    case DoFlowOutput(k) => SetFlowOutputKeepsAccounted(n, k);
    case DoFunnel(c) => MakeFunnelKeepsAccounted(n, c);
    case _ => NothingNewInUse(n, Perform(n, op).0);
  }

  lemma {:induction false} BuiltIsAccounted(build: seq<Net>, act: Action, input: Data, ops: seq<WireOp>, i: nat)
    requires IsBuild(build, act, input, ops) && i < |build|
    ensures Accounted(build[i])
  {
    if i > 0 {
      BuiltIsAccounted(build, act, input, ops, i - 1);
      BuiltIsSound(build, act, input, ops, i - 1);
      assert BuildStep(build[i - 1], ops[i - 1], build[i]);
      PerformKeepsAccounted(build[i - 1], ops[i - 1]);
    }
  }

  /** In every flow built by wiring calls, a job has lost its receiver exactly if its use-once promise has been
      taken and neither a job's input nor the flow's output holds it. */
  lemma DroppedExactly(build: seq<Net>, act: Action, input: Data, ops: seq<WireOp>, i: nat, j: JobId)
    requires IsBuild(build, act, input, ops) && i < |build| && j in build[i].plan.jobs
    ensures build[i].plan.jobs[j].dropped <==>
            build[i].plan.jobs[j].output == OnceOut(false) && !Wired(build[i].plan, OnceOf(j))
  {
    BuiltIsAccounted(build, act, input, ops, i);
    BuiltIsSound(build, act, input, ops, i);
    var n := build[i];
    assert JobRight(n.plan.jobs[j]);
    if Wired(n.plan, OnceOf(j)) {
      var c, k: nat :| IsWire(n.plan, c, k) && Wire(n.plan, c, k) == OnceOf(j);
      assert Fits(n, Wire(n.plan, c, k));
    }
  }

  // ---------------------------------------------------------------------------------------------
  // A flow that loses an output
  // ---------------------------------------------------------------------------------------------

  /** Two jobs are wired one after the other into the single input of a third. */
  function RewiringCalls(): seq<WireOp> {
    [DoAdd(0, false, false), DoAdd(1, false, false), DoAdd(2, true, false), DoUse(2, 0), DoUse(2, 1)]
  }

  function Producer(used: bool, dropped: bool): Job {
    Job(FlavorNone, NoInput, {}, OnceOut(!used), 0, dropped)
  }

  function Consumer(kind: InputKind, deps: set<JobId>): Job {
    Job(FlavorSingle, kind, deps, OnceOut(true), 0, false)
  }

  lemma FirstWiring(n: Net)
    requires n.plan.jobs ==
              map[0 := Producer(false, false), 1 := Producer(false, false),
                  2 := Consumer(NoInput, {})]
    ensures UseOutput(n, 2, 0) == (n.WithJobs(map[0 := Producer(true, false), 1 := Producer(false, false),
                                                  2 := Consumer(Single(One(OnceOf(0))), {0})]), None)
  {
    var taken := Take(n.plan.jobs, 0);
    assert taken ==
              map[0 := Producer(true, false), 1 := Producer(false, false),
                  2 := Consumer(NoInput, {})];
    assert DropAll(taken, []) == taken && Displaced(taken[2]) == [];
    assert SetKind(taken, 2, One(OnceOf(0)))
        == map[0 := Producer(true, false), 1 := Producer(false, false), 2 := Consumer(Single(One(OnceOf(0))), {})];
    assert SetKind(taken, 2, One(OnceOf(0)))[2].deps + {0} == {0};
    assert Give(taken, 2, One(OnceOf(0)), {0})
        == map[0 := Producer(true, false), 1 := Producer(false, false), 2 := Consumer(Single(One(OnceOf(0))), {0})];
  }

  lemma SecondWiring(n: Net)
    requires n.plan.jobs ==
              map[0 := Producer(true, false), 1 := Producer(false, false),
                  2 := Consumer(Single(One(OnceOf(0))), {0})]
    ensures UseOutput(n, 2, 1) == (n.WithJobs(map[0 := Producer(true, true), 1 := Producer(true, false),
                                                  2 := Consumer(Single(One(OnceOf(1))), {0, 1})]), None)
  {
    var taken := Take(n.plan.jobs, 1);
    assert taken ==
              map[0 := Producer(true, false), 1 := Producer(true, false),
                  2 := Consumer(Single(One(OnceOf(0))), {0})];
    assert Displaced(taken[2]) == [OnceOf(0)];
    var rest := DropAll(taken, [OnceOf(0)]);
    assert rest ==
              map[0 := Producer(true, true), 1 := Producer(true, false),
                  2 := Consumer(Single(One(OnceOf(0))), {0})];
    assert SetKind(taken, 2, One(OnceOf(1)))
        == map[0 := Producer(true, true), 1 := Producer(true, false), 2 := Consumer(Single(One(OnceOf(1))), {0})];
    assert SetKind(taken, 2, One(OnceOf(1)))[2].deps + {1} == {0, 1};
    assert Give(taken, 2, One(OnceOf(1)), {1})
        == map[0 := Producer(true, true), 1 := Producer(true, false), 2 := Consumer(Single(One(OnceOf(1))), {0, 1})];
  }

  lemma ThreeJobs(act: Action, input: Data) returns (build: seq<Net>)
    ensures IsBuild(build, act, input, RewiringCalls()[..3])
    ensures build[3].plan.jobs ==
              map[0 := Producer(false, false), 1 := Producer(false, false),
                  2 := Consumer(NoInput, {})]
  {
    var n0 := Net(Plan(map[], act, input, None), false);
    var n1 := Perform(n0, DoAdd(0, false, false)).0;
    var n2 := Perform(n1, DoAdd(1, false, false)).0;
    var n3 := Perform(n2, DoAdd(2, true, false)).0;
    build := [n0, n1, n2, n3];
    var ops := RewiringCalls()[..3];
    assert BuildStep(build[0], ops[0], build[1]) && BuildStep(build[1], ops[1], build[2]);
    assert BuildStep(build[2], ops[2], build[3]);
  }

  lemma ExtendBuild(build: seq<Net>, act: Action, input: Data, ops: seq<WireOp>, op: WireOp)
    requires IsBuild(build, act, input, ops) && Allowed(build[|ops|], op)
    ensures IsBuild(build + [Perform(build[|ops|], op).0], act, input, ops + [op])
  {
    var build' := build + [Perform(build[|ops|], op).0];
    forall i | 0 <= i < |ops + [op]| ensures BuildStep(build'[i], (ops + [op])[i], build'[i + 1]) {
      if i < |ops| {
        assert BuildStep(build[i], ops[i], build[i + 1]);
      }
    }
  }

  lemma RewiredProducerFails(p: Plan) returns (rank: map<JobId, nat>)
    requires p.jobs ==
              map[0 := Producer(true, true), 1 := Producer(true, false),
                  2 := Consumer(Single(One(OnceOf(1))), {0, 1})]
    ensures Evaluable(p, rank) && Eval(p, rank, 0) == Failed(SendError)
  {
    rank := map[0 := 0, 1 := 0, 2 := 1];
    forall j, i | j in p.jobs && 0 <= i < |Leaves(p.jobs[j].kind)|
      ensures SourceIn(p.jobs[j].deps, Leaves(p.jobs[j].kind)[i])
    {
      assert j == 2;
    }
    assert IsRank(DepsOf(p.jobs), rank) && Closed(DepsOf(p.jobs));
    EvalCombines(p, rank, 0, map[]);
    assert Jobs.Produced(map[], {}) == map[];
  }

  /** Giving a single input a second source is enough to make the producer of the first fail. */
  lemma RewiringLosesAnOutput(act: Action, input: Data) returns (build: seq<Net>, rank: map<JobId, nat>)
    ensures IsBuild(build, act, input, RewiringCalls())
    ensures var p := build[|RewiringCalls()|].plan;
            && 0 in p.jobs && p.jobs[0].dropped
            && Evaluable(p, rank) && Eval(p, rank, 0) == Failed(SendError)
  {
    build := ThreeJobs(act, input);
    var ops := RewiringCalls();
    FirstWiring(build[3]);
    ExtendBuild(build, act, input, ops[..3], DoUse(2, 0));
    build := build + [Perform(build[3], DoUse(2, 0)).0];
    assert ops[..3] + [DoUse(2, 0)] == ops[..4];
    SecondWiring(build[4]);
    ExtendBuild(build, act, input, ops[..4], DoUse(2, 1));
    build := build + [Perform(build[4], DoUse(2, 1)).0];
    assert ops[..4] + [DoUse(2, 1)] == ops;
    rank := RewiredProducerFails(build[5].plan);
  }
}
