/**
  Wiring a flow: how jobs are given their inputs, after the `InputSource` implementations of
  src/backend/job.rs and src/backend/disjointed.rs, `FlowBackendInput` and `FlowBackendOutput` of
  src/backend/flow_backend.rs, and the dependency edges added in src/io/disjoint.rs.
 */
module Wiring {
  import opened Graphs
  import opened Promises
  import opened Overlap
  import opened Disjointed
  import opened Jobs
  import opened Engine
  import opened Sequences
  import opened Wrappers

  datatype WireError =
    | OutputCanNotBeReused
    | OutputCanNotBeUsedAsInput
    | OutputAlreadyUsed
    | NotYetSupported
    | UnexpectedInputSource
    | InputAlreadySet
    | OutputNotDisjoint
    | ClaimRefused
    | FlowInputTaskAlreadySet
    | FlowOutputTaskAlreadySet
    | NoPromise

  type JobMap = map<JobId, Job>

  /** A flow under construction; `inputTaken`: the promise of the flow's input has been handed out. */
  datatype Net = Net(plan: Plan, inputTaken: bool) {
    function WithJobs(jobs: JobMap): Net {
      this.(plan := plan.(jobs := jobs))
    }
  }

  // ---------------------------------------------------------------------------------------------
  // What the operations do
  // ---------------------------------------------------------------------------------------------

  /** The promise of a use-once output is taken out of it. */
  function Take(jobs: JobMap, j: JobId): JobMap
    requires j in jobs
  {
    jobs[j := jobs[j].(output := OnceOut(false))]
  }

  /** Promises are thrown away; what their jobs send will not be received. */
  function DropAll(jobs: JobMap, leaves: seq<Leaf>): JobMap {
    map j | j in jobs :: if OnceOf(j) in leaves then jobs[j].(dropped := true) else jobs[j]
  }

  /** The promises a new source replaces: those of a single input, none of a funnel's. */
  function Displaced(job: Job): seq<Leaf> {
    if job.kind.Single? then Leaves(job.kind) else []
  }

  function Attached(job: Job, s: Source): InputKind {
    if job.kind.Funnel? then Funnel(job.kind.entries + [Item(s)]) else Single(s)
  }

  /** The source takes the place of a single input, whose promises are thrown away, or is added to a funnel. */
  function SetKind(jobs: JobMap, c: JobId, s: Source): JobMap
    requires c in jobs
  {
    var rest := DropAll(jobs, Displaced(jobs[c]));
    rest[c := rest[c].(kind := Attached(jobs[c], s))]
  }

  function AddDeps(jobs: JobMap, c: JobId, deps: set<JobId>): JobMap
    requires c in jobs
  {
    jobs[c := jobs[c].(deps := jobs[c].deps + deps)]
  }

  /** Gives job `c` a source made of promises of `deps`. */
  function Give(jobs: JobMap, c: JobId, s: Source, deps: set<JobId>): JobMap
    requires c in jobs
  {
    AddDeps(SetKind(jobs, c, s), c, deps)
  }

  function UseOutput(n: Net, c: JobId, j: JobId): (Net, Option<WireError>)
    requires c in n.plan.jobs && j in n.plan.jobs
  {
    var jobs := n.plan.jobs;
    if jobs[c].flavor.FlavorNone? then (n, Some(OutputCanNotBeUsedAsInput))
    else match jobs[j].output
         case DisjointOut(_) => (n, Some(OutputCanNotBeUsedAsInput))
         case ReusableOut => (n.WithJobs(Give(jobs, c, One(ReuseOf(j, jobs[j].gen)), {j})), None)
         case OnceOut(true) => (n.WithJobs(Give(Take(jobs, j), c, One(OnceOf(j)), {j})), None)
         case OnceOut(false) =>
           (if jobs[c].flavor.FlavorSingle? then n.WithJobs(AddDeps(jobs, c, {j})) else n, Some(OutputCanNotBeReused))
  }

  /** Takes the promises of a tuple's outputs in order, up to the first that cannot be used. */
  function TakeAll(jobs: JobMap, js: seq<JobId>): (r: (JobMap, seq<Leaf>, Option<WireError>))
    requires forall j :: j in js ==> j in jobs
    ensures r.0.Keys == jobs.Keys
  {
    if js == [] then (jobs, [], None)
    else
      var j := js[|js| - 1];
      var (taken, leaves, error) := TakeAll(jobs, js[..|js| - 1]);
      if error.Some? then (taken, leaves, error)
      else match taken[j].output
           case OnceOut(true) => (Take(taken, j), leaves + [OnceOf(j)], None)
           case OnceOut(false) => (taken, leaves, Some(OutputAlreadyUsed))
           case ReusableOut => (taken, leaves + [ReuseOf(j, taken[j].gen)], None)
           case DisjointOut(_) => (taken, leaves, Some(NotYetSupported))
  }

  function UseTuple(n: Net, c: JobId, js: seq<JobId>): (Net, Option<WireError>)
    requires c in n.plan.jobs && forall j :: j in js ==> j in n.plan.jobs
  {
    if n.plan.jobs[c].flavor.FlavorNone? then (n, Some(OutputCanNotBeUsedAsInput))
    else
      var (taken, leaves, error) := TakeAll(n.plan.jobs, js);
      if error.Some? then (n.WithJobs(DropAll(taken, leaves)), error)
      else (n.WithJobs(Give(taken, c, All(leaves), set j | j in js)), None)
  }

  /** The claim is recorded even if the input then turns it down. */
  function UsePart(n: Net, c: JobId, j: JobId, claim: Claim): (Net, Option<WireError>)
    requires c in n.plan.jobs && j in n.plan.jobs && c != j
  {
    var jobs := n.plan.jobs;
    if !jobs[j].output.DisjointOut? then (n, Some(OutputNotDisjoint))
    else if AnyOverlap(jobs[j].output.bounds, claim.Bounds()) then (n, Some(ClaimRefused))
    else
      var claimed := jobs[j := jobs[j].(output := DisjointOut(Accept(jobs[j].output.bounds, claim.Bounds())))];
      if jobs[c].flavor.FlavorNone? then (n.WithJobs(claimed), Some(UnexpectedInputSource))
      else if jobs[c].kind.Single? then (n.WithJobs(claimed), Some(InputAlreadySet))
      else (n.WithJobs(Give(claimed, c, One(PartOf(j, jobs[j].gen, claim)), {j})), None)
  }

  function UseFlowInput(n: Net, c: JobId): (Net, Option<WireError>)
    requires c in n.plan.jobs
  {
    if n.plan.jobs[c].flavor.FlavorNone? then (n, Some(UnexpectedInputSource))
    else if n.inputTaken then (n, Some(FlowInputTaskAlreadySet))
    else (n.WithJobs(Give(n.plan.jobs, c, One(FlowIn), {})).(inputTaken := true), None)
  }

  /** The promise is taken before it is checked whether the flow already has an output. */
  function SetFlowOutput(n: Net, j: JobId): (Net, Option<WireError>)
    requires j in n.plan.jobs
  {
    var jobs := n.plan.jobs;
    match jobs[j].output
    case DisjointOut(_) => (n, Some(NoPromise))
    case OnceOut(false) => (n, Some(NoPromise))
    case ReusableOut =>
      if n.plan.output.Some? then (n, Some(FlowOutputTaskAlreadySet))
      else (n.(plan := n.plan.(output := Some(ReuseOf(j, jobs[j].gen)))), None)
    case OnceOut(true) =>
      if n.plan.output.Some? then (n.WithJobs(DropAll(Take(jobs, j), [OnceOf(j)])), Some(FlowOutputTaskAlreadySet))
      else (n.(plan := n.plan.(output := Some(OnceOf(j)), jobs := Take(jobs, j))), None)
  }

  /** `make_reusable` and `make_disjointed`: a new channel, which promises wired earlier do not read. */
  function Remake(n: Net, j: JobId, output: OutputKind): (Net, Option<WireError>)
    requires j in n.plan.jobs
  {
    var job := n.plan.jobs[j];
    if job.output == OnceOut(false) then (n, Some(OutputAlreadyUsed))
    else (n.WithJobs(n.plan.jobs[j := job.(output := output, gen := job.gen + 1)]), None)
  }

  /** A single input becomes the first entries of the funnel, element by element. */
  function MakeFunnel(n: Net, c: JobId): (Net, Option<WireError>)
    requires c in n.plan.jobs
  {
    var job := n.plan.jobs[c];
    if !job.flavor.FlavorSingle? then (n, Some(UnexpectedInputSource))
    else
      var entries := if job.kind.Single? then [Spread(job.kind.source)] else [];
      (n.WithJobs(n.plan.jobs[c := job.(flavor := FlavorFunnel, kind := Funnel(entries))]), None)
  }

  function AddJob(n: Net, id: JobId, takesInput: bool, output: OutputKind): (Net, Option<WireError>) {
    (n.WithJobs(n.plan.jobs[id :=
       Job(if takesInput then FlavorSingle else FlavorNone, NoInput, {}, output, 0, false)]), None)
  }

  datatype WireOp =
    | DoAdd(id: JobId, takesInput: bool, reusable: bool)
    | DoUse(c: JobId, j: JobId)
    | DoTuple(c: JobId, js: seq<JobId>)
    | DoPart(c: JobId, j: JobId, claim: Claim)
    | DoFlowInput(c: JobId)
    | DoFlowOutput(j: JobId)
    | DoReusable(j: JobId)
    | DoDisjointed(j: JobId)
    | DoFunnel(c: JobId)
    | DoDepend(c: JobId, d: JobId)

  /** The jobs named exist, and jobs borrowed together are different ones. */
  ghost predicate Allowed(n: Net, op: WireOp) {
    match op
    case DoAdd(id, _, _) => id !in n.plan.jobs
    case DoUse(c, j) => c in n.plan.jobs && j in n.plan.jobs && c != j
    case DoTuple(c, js) => c in n.plan.jobs && c !in js && Distinct(js) && forall j :: j in js ==> j in n.plan.jobs
    case DoPart(c, j, _) => c in n.plan.jobs && j in n.plan.jobs && c != j
    case DoFlowInput(c) => c in n.plan.jobs
    case DoFlowOutput(j) => j in n.plan.jobs
    case DoReusable(j) => j in n.plan.jobs
    case DoDisjointed(j) => j in n.plan.jobs
    case DoFunnel(c) => c in n.plan.jobs
    case DoDepend(c, _) => c in n.plan.jobs
  }

  function Perform(n: Net, op: WireOp): (Net, Option<WireError>)
    requires Allowed(n, op)
  {
    match op
    case DoAdd(id, takesInput, reusable) =>
      AddJob(n, id, takesInput, if reusable then ReusableOut else OnceOut(true))
    case DoUse(c, j) => UseOutput(n, c, j)
    case DoTuple(c, js) => UseTuple(n, c, js)
    case DoPart(c, j, claim) => UsePart(n, c, j, claim)
    case DoFlowInput(c) => UseFlowInput(n, c)
    case DoFlowOutput(j) => SetFlowOutput(n, j)
    case DoReusable(j) => Remake(n, j, ReusableOut)
    case DoDisjointed(j) => Remake(n, j, DisjointOut([]))
    case DoFunnel(c) => MakeFunnel(n, c)
    case DoDepend(c, d) => (n.WithJobs(AddDeps(n.plan.jobs, c, {d})), None)
  }

  // ---------------------------------------------------------------------------------------------
  // What the operations keep
  // ---------------------------------------------------------------------------------------------

  /** A wired promise and the output it was taken from agree. */
  ghost predicate Fits(n: Net, leaf: Leaf) {
    match leaf
    case OnceOf(j) => j in n.plan.jobs && n.plan.jobs[j].output == OnceOut(false) && !n.plan.jobs[j].dropped
    case ReuseOf(j, gen) => j in n.plan.jobs && gen <= n.plan.jobs[j].gen
                            && (gen == n.plan.jobs[j].gen ==> n.plan.jobs[j].output.ReusableOut?)
    case PartOf(j, gen, claim) => j in n.plan.jobs && gen <= n.plan.jobs[j].gen
                                  && (gen == n.plan.jobs[j].gen ==>
                                        && n.plan.jobs[j].output.DisjointOut?
                                        && claim.Bounds() in n.plan.jobs[j].output.bounds)
    case FlowIn => n.inputTaken
  }

  /** Two promises take the same thing only in the overlap checker's blind spot. */
  ghost predicate Tolerable(a: Leaf, b: Leaf) {
    Clash(a, b) ==> a.PartOf? && b.PartOf? && BlindSpot(a.claim.Bounds(), b.claim.Bounds())
  }

  ghost predicate AllFit(n: Net) {
    forall c, i :: IsWire(n.plan, c, i) ==> Fits(n, Wire(n.plan, c, i))
  }

  ghost predicate AllTolerable(p: Plan) {
    forall c, i, d, k :: IsWire(p, c, i) && IsWire(p, d, k) && (c, i) != (d, k) ==>
                           Tolerable(Wire(p, c, i), Wire(p, d, k))
  }

  ghost predicate JobRight(job: Job) {
    && (job.flavor.FlavorNone? ==> job.kind.NoInput?)
    && (job.flavor.FlavorSingle? ==> !job.kind.Funnel?)
    && (job.flavor.FlavorFunnel? ==> job.kind.Funnel?)
    && (job.dropped ==> job.output == OnceOut(false))
  }

  ghost predicate JobsRight(jobs: JobMap) {
    forall j :: j in jobs ==> JobRight(jobs[j])
  }

  ghost predicate OutputRight(p: Plan) {
    p.output.Some? ==> !p.output.value.FlowIn?
  }

  ghost predicate Sound(n: Net) {
    && SourcesAreDependencies(n.plan.jobs) && AllFit(n) && AllTolerable(n.plan)
    && JobsRight(n.plan.jobs) && OutputRight(n.plan)
  }

  // ---------------------------------------------------------------------------------------------
  // Fresh promises
  // ---------------------------------------------------------------------------------------------

  /** A promise that is still there to be taken. */
  ghost predicate Fresh(n: Net, leaf: Leaf) {
    match leaf
    case OnceOf(j) => j in n.plan.jobs && n.plan.jobs[j].output == OnceOut(true)
    case ReuseOf(j, gen) => true
    case PartOf(j, gen, claim) => j in n.plan.jobs && gen == n.plan.jobs[j].gen && n.plan.jobs[j].output.DisjointOut?
                                  && !AnyOverlap(n.plan.jobs[j].output.bounds, claim.Bounds())
    case FlowIn => !n.inputTaken
  }

  lemma FreshIsTolerable(n: Net, left: Leaf, wired: Leaf)
    requires Fresh(n, left) && Fits(n, wired)
    ensures Tolerable(left, wired) && Tolerable(wired, left)
  {
    if left.PartOf? && wired.PartOf? && left.job == wired.job && left.gen == wired.gen {
      var bounds := n.plan.jobs[left.job].output.bounds;
      var i :| 0 <= i < |bounds| && bounds[i] == wired.claim.Bounds();
      OverlapExactly(bounds[i], left.claim.Bounds());
    }
  }

  /** The promises of `c` in `p'` are some it had before, in place, and then `added`; nobody else's change. */
  ghost predicate Extends(p: Plan, p': Plan, c: Option<JobId>, kept: nat, added: seq<Leaf>) {
    && p'.jobs.Keys == p.jobs.Keys
    && (c.Some? ==> c.value in p.jobs)
    && kept <= |Wires(p, c)| && Wires(p', c) == Wires(p, c)[..kept] + added
    && forall d: Option<JobId> :: d != c && (d.Some? ==> d.value in p.jobs) ==> Wires(p', d) == Wires(p, d)
  }

  /** Where a wire of the extended plan comes from: it was there before, or it is among those added. */
  lemma WireOrigin(p: Plan, p': Plan, c: Option<JobId>, kept: nat, added: seq<Leaf>, d: Option<JobId>, i: nat)
    requires Extends(p, p', c, kept, added) && IsWire(p', d, i)
    ensures d != c || i < kept ==> IsWire(p, d, i) && Wire(p', d, i) == Wire(p, d, i)
    ensures d == c && i >= kept ==> i - kept < |added| && Wire(p', d, i) == added[i - kept]
  {
  }

  ghost predicate Pairwise(leaves: seq<Leaf>) {
    forall i, k :: 0 <= i < |leaves| && 0 <= k < |leaves| && i != k ==> Tolerable(leaves[i], leaves[k])
  }

  lemma ExtendKeepsTolerable(n: Net, p': Plan, c: Option<JobId>, kept: nat, added: seq<Leaf>)
    requires AllFit(n) && AllTolerable(n.plan) && Extends(n.plan, p', c, kept, added)
    requires Pairwise(added) && forall i :: 0 <= i < |added| ==> Fresh(n, added[i])
    ensures AllTolerable(p')
  {
    forall d, i: nat, e, k: nat | IsWire(p', d, i) && IsWire(p', e, k) && (d, i) != (e, k)
      ensures Tolerable(Wire(p', d, i), Wire(p', e, k))
    {
      WireOrigin(n.plan, p', c, kept, added, d, i);
      WireOrigin(n.plan, p', c, kept, added, e, k);
      if d == c && i >= kept {
        if e == c && k >= kept {
          assert Tolerable(added[i - kept], added[k - kept]);
        } else {
          FreshIsTolerable(n, added[i - kept], Wire(n.plan, e, k));
        }
      } else if e == c && k >= kept {
        FreshIsTolerable(n, added[k - kept], Wire(n.plan, d, i));
      }
    }
  }

  lemma ExtendKeepsFit(n: Net, n': Net, c: Option<JobId>, kept: nat, added: seq<Leaf>)
    requires Extends(n.plan, n'.plan, c, kept, added)
    requires forall d, i: nat :: IsWire(n.plan, d, i) && (d != c || i < kept) ==> Fits(n', Wire(n.plan, d, i))
    requires forall i :: 0 <= i < |added| ==> Fits(n', added[i])
    ensures AllFit(n')
  {
    forall d, i: nat | IsWire(n'.plan, d, i) ensures Fits(n', Wire(n'.plan, d, i)) {
      WireOrigin(n.plan, n'.plan, c, kept, added, d, i);
    }
  }

  // ---------------------------------------------------------------------------------------------
  // Giving a job a source
  // ---------------------------------------------------------------------------------------------

  /** Only outputs differ. */
  ghost predicate SameInputs(a: JobMap, b: JobMap) {
    && a.Keys == b.Keys
    && forall j :: j in a ==> a[j].kind == b[j].kind && a[j].deps == b[j].deps && a[j].flavor == b[j].flavor
  }

  lemma MoreEntries(entries: seq<Entry>, s: Source)
    ensures EntryLeaves(entries + [Item(s)]) == EntryLeaves(entries) + SourceLeaves(s)
  {
    assert (entries + [Item(s)])[..|entries|] == entries;
  }

  /** How many of its promises a job keeps when it is given another source. */
  function Kept(job: Job): nat {
    if job.kind.Funnel? then |Leaves(job.kind)| else 0
  }

  lemma GiveChanges(jobs: JobMap, c: JobId, s: Source, deps: set<JobId>)
    requires c in jobs
    ensures Give(jobs, c, s, deps).Keys == jobs.Keys
    ensures Give(jobs, c, s, deps)[c].kind == Attached(jobs[c], s)
    ensures forall j :: j in jobs && j != c ==> Give(jobs, c, s, deps)[j].kind == jobs[j].kind
  {
  }

  lemma AttachedLeaves(job: Job, s: Source)
    ensures Leaves(Attached(job, s)) == Leaves(job.kind)[..Kept(job)] + SourceLeaves(s)
  {
    if job.kind.Funnel? {
      MoreEntries(job.kind.entries, s);
      assert Leaves(job.kind)[..Kept(job)] == Leaves(job.kind);
    }
  }

  lemma GiveExtends(p: Plan, jobs: JobMap, c: JobId, s: Source, deps: set<JobId>)
    requires SameInputs(p.jobs, jobs) && c in jobs
    ensures Extends(p, p.(jobs := Give(jobs, c, s, deps)), Some(c), Kept(jobs[c]), SourceLeaves(s))
  {
    var p' := p.(jobs := Give(jobs, c, s, deps));
    GiveChanges(jobs, c, s, deps);
    AttachedLeaves(jobs[c], s);
    forall d: Option<JobId> | d != Some(c) && (d.Some? ==> d.value in p.jobs) ensures Wires(p', d) == Wires(p, d) {
    }
  }

  /** A promise that was there before and is kept, or is new, is not among those thrown away. */
  lemma KeptIsNotDisplaced(n: Net, c: JobId, d: Option<JobId>, i: nat)
    requires AllTolerable(n.plan) && c in n.plan.jobs && IsWire(n.plan, d, i) && Wire(n.plan, d, i).OnceOf?
    requires d != Some(c) || i < Kept(n.plan.jobs[c])
    ensures Wire(n.plan, d, i) !in Displaced(n.plan.jobs[c])
  {
    var leaves := Displaced(n.plan.jobs[c]);
    forall k | 0 <= k < |leaves| ensures leaves[k] != Wire(n.plan, d, i) {
      assert IsWire(n.plan, Some(c), k) && Wire(n.plan, Some(c), k) == leaves[k];
      assert Tolerable(Wire(n.plan, d, i), Wire(n.plan, Some(c), k));
    }
  }

  lemma FreshIsNotDisplaced(n: Net, c: JobId, left: Leaf)
    requires AllFit(n) && c in n.plan.jobs && Fresh(n, left) && left.OnceOf?
    ensures left !in Displaced(n.plan.jobs[c])
  {
    var leaves := Displaced(n.plan.jobs[c]);
    forall k | 0 <= k < |leaves| ensures leaves[k] != left {
      assert IsWire(n.plan, Some(c), k) && Wire(n.plan, Some(c), k) == leaves[k];
      assert Fits(n, Wire(n.plan, Some(c), k));
    }
  }

  lemma GiveKeepsFit(n: Net, c: JobId, s: Source, deps: set<JobId>, leaf: Leaf)
    requires c in n.plan.jobs && Fits(n, leaf)
    requires leaf.OnceOf? ==> leaf !in Displaced(n.plan.jobs[c])
    ensures Fits(n.WithJobs(Give(n.plan.jobs, c, s, deps)), leaf)
  {
  }

  lemma GiveKeepsAllFit(n: Net, n1: Net, c: JobId, s: Source, deps: set<JobId>)
    requires AllFit(n) && AllTolerable(n.plan) && SameInputs(n.plan.jobs, n1.plan.jobs)
    requires n.plan.output == n1.plan.output
    requires c in n.plan.jobs && AllFit(n1)
    requires forall i :: 0 <= i < |SourceLeaves(s)| ==> Fresh(n, SourceLeaves(s)[i]) && Fits(n1, SourceLeaves(s)[i])
    ensures AllFit(n1.WithJobs(Give(n1.plan.jobs, c, s, deps)))
  {
    var jobs, n' := n1.plan.jobs, n1.WithJobs(Give(n1.plan.jobs, c, s, deps));
    GiveExtends(n1.plan, jobs, c, s, deps);
    forall d, i: nat | IsWire(n1.plan, d, i) && (d != Some(c) || i < Kept(jobs[c]))
      ensures Fits(n', Wire(n1.plan, d, i))
    {
      assert IsWire(n.plan, d, i) && Wire(n.plan, d, i) == Wire(n1.plan, d, i);
      if Wire(n.plan, d, i).OnceOf? {
        KeptIsNotDisplaced(n, c, d, i);
      }
      GiveKeepsFit(n1, c, s, deps, Wire(n1.plan, d, i));
    }
    forall i | 0 <= i < |SourceLeaves(s)| ensures Fits(n', SourceLeaves(s)[i]) {
      if SourceLeaves(s)[i].OnceOf? {
        FreshIsNotDisplaced(n, c, SourceLeaves(s)[i]);
      }
      GiveKeepsFit(n1, c, s, deps, SourceLeaves(s)[i]);
    }
    ExtendKeepsFit(n1, n', Some(c), Kept(jobs[c]), SourceLeaves(s));
  }

  lemma GiveKeepsSources(jobs: JobMap, c: JobId, s: Source, deps: set<JobId>)
    requires SourcesAreDependencies(jobs) && c in jobs
    requires forall i :: 0 <= i < |SourceLeaves(s)| ==> SourceIn(deps, SourceLeaves(s)[i])
    ensures SourcesAreDependencies(Give(jobs, c, s, deps))
  {
    var jobs' := Give(jobs, c, s, deps);
    forall j, i | j in jobs' && 0 <= i < |Leaves(jobs'[j].kind)|
      ensures SourceIn(jobs'[j].deps, Leaves(jobs'[j].kind)[i])
    {
      if j == c {
        if jobs[c].kind.Funnel? {
          MoreEntries(jobs[c].kind.entries, s);
          if i < |Leaves(jobs[c].kind)| {
            assert SourceIn(jobs[c].deps, Leaves(jobs[c].kind)[i]);
          }
        }
      } else {
        assert SourceIn(jobs[j].deps, Leaves(jobs[j].kind)[i]);
      }
    }
  }

  lemma GiveKeepsJobsRight(n: Net, c: JobId, s: Source, deps: set<JobId>)
    requires AllFit(n) && JobsRight(n.plan.jobs) && c in n.plan.jobs && !n.plan.jobs[c].flavor.FlavorNone?
    ensures JobsRight(Give(n.plan.jobs, c, s, deps))
  {
    var jobs' := Give(n.plan.jobs, c, s, deps);
    forall j | j in jobs' ensures JobRight(jobs'[j]) {
      assert JobRight(n.plan.jobs[j]);
      if OnceOf(j) in Displaced(n.plan.jobs[c]) {
        var i :| 0 <= i < |Displaced(n.plan.jobs[c])| && Displaced(n.plan.jobs[c])[i] == OnceOf(j);
        assert IsWire(n.plan, Some(c), i) && Fits(n, Wire(n.plan, Some(c), i));
      }
    }
  }

  /** Giving a job fresh promises of jobs it then depends on keeps the wiring sound.  `n1` is `n` with those
      promises taken. */
  lemma GiveKeepsSound(n: Net, n1: Net, c: JobId, s: Source, deps: set<JobId>)
    requires Sound(n) && SameInputs(n.plan.jobs, n1.plan.jobs) && n.plan.output == n1.plan.output
    requires c in n.plan.jobs && !n.plan.jobs[c].flavor.FlavorNone?
    requires AllFit(n1) && JobsRight(n1.plan.jobs) && Pairwise(SourceLeaves(s))
    requires forall i :: 0 <= i < |SourceLeaves(s)| ==> Fresh(n, SourceLeaves(s)[i]) && Fits(n1, SourceLeaves(s)[i])
    requires forall i :: 0 <= i < |SourceLeaves(s)| ==> SourceIn(deps, SourceLeaves(s)[i])
    ensures Sound(n1.WithJobs(Give(n1.plan.jobs, c, s, deps)))
  {
    var n' := n1.WithJobs(Give(n1.plan.jobs, c, s, deps));
    assert SourcesAreDependencies(n1.plan.jobs) by {
      SameSources(n.plan.jobs, n1.plan.jobs);
    }
    GiveKeepsSources(n1.plan.jobs, c, s, deps);
    GiveKeepsAllFit(n, n1, c, s, deps);
    GiveExtends(n.plan, n1.plan.jobs, c, s, deps);
    GiveTolerable(n, n'.plan, c, s, n1.plan.jobs);
    GiveKeepsJobsRight(n1, c, s, deps);
  }

  lemma GiveTolerable(n: Net, p': Plan, c: JobId, s: Source, jobs: JobMap)
    requires AllFit(n) && AllTolerable(n.plan) && c in jobs
    requires exists deps ::
               Extends(n.plan, n.plan.(jobs := Give(jobs, c, s, deps)), Some(c), Kept(jobs[c]), SourceLeaves(s))
                            && p'.jobs == Give(jobs, c, s, deps)
    requires p'.output == n.plan.output
    requires Pairwise(SourceLeaves(s)) && forall i :: 0 <= i < |SourceLeaves(s)| ==> Fresh(n, SourceLeaves(s)[i])
    ensures AllTolerable(p')
  {
    var deps :| Extends(n.plan, n.plan.(jobs := Give(jobs, c, s, deps)), Some(c), Kept(jobs[c]), SourceLeaves(s))
                && p'.jobs == Give(jobs, c, s, deps);
    var q := n.plan.(jobs := Give(jobs, c, s, deps));
    ExtendKeepsTolerable(n, q, Some(c), Kept(jobs[c]), SourceLeaves(s));
    forall d, i: nat, e, k: nat | IsWire(p', d, i) && IsWire(p', e, k) && (d, i) != (e, k)
      ensures Tolerable(Wire(p', d, i), Wire(p', e, k))
    {
      assert IsWire(q, d, i) && IsWire(q, e, k) && Wire(q, d, i) == Wire(p', d, i) && Wire(q, e, k) == Wire(p', e, k);
    }
  }

  lemma SameSources(a: JobMap, b: JobMap)
    requires SameInputs(a, b) && SourcesAreDependencies(a)
    ensures SourcesAreDependencies(b)
  {
    forall j, i | j in b && 0 <= i < |Leaves(b[j].kind)| ensures SourceIn(b[j].deps, Leaves(b[j].kind)[i]) {
      assert SourceIn(a[j].deps, Leaves(a[j].kind)[i]);
    }
  }

  // ---------------------------------------------------------------------------------------------
  // Every operation keeps the wiring sound
  // ---------------------------------------------------------------------------------------------

  /** Every wire of `p'` was one of `p`. */
  lemma SameWires(p: Plan, p': Plan)
    requires SameInputs(p.jobs, p'.jobs) && p.output == p'.output
    ensures forall d, i: nat :: IsWire(p', d, i) ==> IsWire(p, d, i) && Wire(p', d, i) == Wire(p, d, i)
  {
  }

  /** Changing outputs only: what has to hold is that the wired promises still fit. */
  lemma OutputsKeepSound(n: Net, n': Net)
    requires Sound(n) && SameInputs(n.plan.jobs, n'.plan.jobs) && n.plan.output == n'.plan.output
    requires forall leaf :: Fits(n, leaf) ==> Fits(n', leaf)
    requires JobsRight(n'.plan.jobs)
    ensures Sound(n')
  {
    SameSources(n.plan.jobs, n'.plan.jobs);
    SameWires(n.plan, n'.plan);
    forall d, i: nat | IsWire(n'.plan, d, i) ensures Fits(n', Wire(n'.plan, d, i)) {
      assert Fits(n, Wire(n.plan, d, i));
    }
    forall d, i: nat, e, k: nat | IsWire(n'.plan, d, i) && IsWire(n'.plan, e, k) && (d, i) != (e, k)
      ensures Tolerable(Wire(n'.plan, d, i), Wire(n'.plan, e, k))
    {
      assert Tolerable(Wire(n.plan, d, i), Wire(n.plan, e, k));
    }
  }

  lemma TakeFits(n: Net, j: JobId, leaf: Leaf)
    requires j in n.plan.jobs && n.plan.jobs[j].output == OnceOut(true) && Fits(n, leaf)
    ensures Fits(n.WithJobs(Take(n.plan.jobs, j)), leaf)
  {
  }

  lemma TakeKeepsSound(n: Net, j: JobId)
    requires Sound(n) && j in n.plan.jobs && n.plan.jobs[j].output == OnceOut(true)
    ensures Sound(n.WithJobs(Take(n.plan.jobs, j))) && SameInputs(n.plan.jobs, Take(n.plan.jobs, j))
  {
    var n' := n.WithJobs(Take(n.plan.jobs, j));
    forall leaf | Fits(n, leaf) ensures Fits(n', leaf) {
      TakeFits(n, j, leaf);
    }
    forall k | k in n'.plan.jobs ensures JobRight(n'.plan.jobs[k]) {
      assert JobRight(n.plan.jobs[k]);
    }
    OutputsKeepSound(n, n');
  }

  lemma AddDepsKeepsSound(n: Net, c: JobId, deps: set<JobId>)
    requires Sound(n) && c in n.plan.jobs
    ensures Sound(n.WithJobs(AddDeps(n.plan.jobs, c, deps)))
  {
    var n' := n.WithJobs(AddDeps(n.plan.jobs, c, deps));
    forall j, i | j in n'.plan.jobs && 0 <= i < |Leaves(n'.plan.jobs[j].kind)|
      ensures SourceIn(n'.plan.jobs[j].deps, Leaves(n'.plan.jobs[j].kind)[i])
    {
      assert SourceIn(n.plan.jobs[j].deps, Leaves(n.plan.jobs[j].kind)[i]);
    }
    SameKindsKeepWires(n, n');
  }

  /** Dependencies and flavors aside, nothing has changed. */
  lemma SameKindsKeepWires(n: Net, n': Net)
    requires AllFit(n) && AllTolerable(n.plan) && JobsRight(n.plan.jobs)
    requires n'.plan.jobs.Keys == n.plan.jobs.Keys && n.plan.output == n'.plan.output && n.inputTaken == n'.inputTaken
    requires forall j :: j in n.plan.jobs ==>
               n'.plan.jobs[j] == n.plan.jobs[j].(deps := n'.plan.jobs[j].deps)
    ensures AllFit(n') && AllTolerable(n'.plan) && JobsRight(n'.plan.jobs)
  {
    forall d, i: nat | IsWire(n'.plan, d, i) ensures Fits(n', Wire(n'.plan, d, i)) {
      assert IsWire(n.plan, d, i) && Wire(n'.plan, d, i) == Wire(n.plan, d, i) && Fits(n, Wire(n.plan, d, i));
    }
    forall d, i: nat, e, k: nat | IsWire(n'.plan, d, i) && IsWire(n'.plan, e, k) && (d, i) != (e, k)
      ensures Tolerable(Wire(n'.plan, d, i), Wire(n'.plan, e, k))
    {
      assert IsWire(n.plan, d, i) && Wire(n'.plan, d, i) == Wire(n.plan, d, i);
      assert IsWire(n.plan, e, k) && Wire(n'.plan, e, k) == Wire(n.plan, e, k);
      assert Tolerable(Wire(n.plan, d, i), Wire(n.plan, e, k));
    }
    forall j | j in n'.plan.jobs ensures JobRight(n'.plan.jobs[j]) {
      assert JobRight(n.plan.jobs[j]);
    }
  }

  lemma OneKeepsSound(n: Net, n1: Net, c: JobId, leaf: Leaf, deps: set<JobId>)
    requires Sound(n) && Sound(n1) && SameInputs(n.plan.jobs, n1.plan.jobs) && n.plan.output == n1.plan.output
    requires c in n.plan.jobs && !n.plan.jobs[c].flavor.FlavorNone?
    requires Fresh(n, leaf) && Fits(n1, leaf) && SourceIn(deps, leaf)
    ensures Sound(n1.WithJobs(Give(n1.plan.jobs, c, One(leaf), deps)))
  {
    assert SourceLeaves(One(leaf)) == [leaf];
    GiveKeepsSound(n, n1, c, One(leaf), deps);
  }

  lemma UseOutputKeepsSound(n: Net, c: JobId, j: JobId)
    requires Sound(n) && c in n.plan.jobs && j in n.plan.jobs && c != j
    ensures Sound(UseOutput(n, c, j).0)
  {
    var jobs := n.plan.jobs;
    if !jobs[c].flavor.FlavorNone? {
      match jobs[j].output {
        case DisjointOut(_) =>
        case ReusableOut => OneKeepsSound(n, n, c, ReuseOf(j, jobs[j].gen), {j});
        case OnceOut(true) =>
          TakeKeepsSound(n, j);
          OneKeepsSound(n, n.WithJobs(Take(jobs, j)), c, OnceOf(j), {j});
        case OnceOut(false) => AddDepsKeepsSound(n, c, {j});
      }
    }
  }

  /** The promises taken for a tuple: fresh before, fitting after, and of different jobs. */
  ghost predicate Taken(n: Net, taken: JobMap, leaves: seq<Leaf>, js: seq<JobId>) {
    && SameInputs(n.plan.jobs, taken)
    && Sound(n.WithJobs(taken))
    && (forall j :: j in taken && j !in js ==> taken[j] == n.plan.jobs[j])
    && Pairwise(leaves)
    && forall i :: 0 <= i < |leaves| ==> TakenLeaf(n, taken, leaves[i], js)
  }

  ghost predicate TakenLeaf(n: Net, taken: JobMap, leaf: Leaf, js: seq<JobId>) {
    (leaf.OnceOf? || leaf.ReuseOf?) && leaf.job in js && Fresh(n, leaf) && Fits(n.WithJobs(taken), leaf)
  }

  lemma TakeOneMore(n: Net, taken: JobMap, leaves: seq<Leaf>, js: seq<JobId>, j: JobId, leaf: Leaf, taken': JobMap)
    requires Taken(n, taken, leaves, js) && j !in js && j in n.plan.jobs
    requires (leaf.OnceOf? || leaf.ReuseOf?) && leaf.job == j && Fresh(n, leaf)
    requires SameInputs(n.plan.jobs, taken') && Sound(n.WithJobs(taken')) && Fits(n.WithJobs(taken'), leaf)
    requires forall k :: k in taken && k != j ==> taken'[k] == taken[k]
    ensures Taken(n, taken', leaves + [leaf], js + [j])
  {
    var more := leaves + [leaf];
    forall i | 0 <= i < |more| ensures TakenLeaf(n, taken', more[i], js + [j]) {
      if i < |leaves| {
        assert TakenLeaf(n, taken, leaves[i], js);
      }
    }
    forall i, k | 0 <= i < |more| && 0 <= k < |more| && i != k ensures Tolerable(more[i], more[k]) {
      if i < |leaves| {
        assert TakenLeaf(n, taken, leaves[i], js);
      }
      if k < |leaves| {
        assert TakenLeaf(n, taken, leaves[k], js);
      }
      if i < |leaves| && k < |leaves| {
        assert Tolerable(leaves[i], leaves[k]);
      }
    }
  }

  lemma TakenOfMore(n: Net, taken: JobMap, leaves: seq<Leaf>, js: seq<JobId>, j: JobId)
    requires Taken(n, taken, leaves, js)
    ensures Taken(n, taken, leaves, js + [j])
  {
    forall i | 0 <= i < |leaves| ensures TakenLeaf(n, taken, leaves[i], js + [j]) {
      assert TakenLeaf(n, taken, leaves[i], js);
    }
  }

  lemma {:induction false} TakeAllIsTaken(n: Net, js: seq<JobId>)
    requires Sound(n) && Distinct(js) && forall j :: j in js ==> j in n.plan.jobs
    ensures Taken(n, TakeAll(n.plan.jobs, js).0, TakeAll(n.plan.jobs, js).1, js)
  {
    if js != [] {
      var rest, j := js[..|js| - 1], js[|js| - 1];
      assert js == rest + [j] && j !in rest;
      TakeAllIsTaken(n, rest);
      var (taken, leaves, error) := TakeAll(n.plan.jobs, rest);
      TakenOfMore(n, taken, leaves, rest, j);
      if error.None? {
        match taken[j].output {
          case OnceOut(true) =>
            TakeKeepsSound(n.WithJobs(taken), j);
            TakeOneMore(n, taken, leaves, rest, j, OnceOf(j), Take(taken, j));
          case ReusableOut => TakeOneMore(n, taken, leaves, rest, j, ReuseOf(j, taken[j].gen), taken);
          case _ =>
        }
      }
    } else {
      assert n.WithJobs(n.plan.jobs) == n;
    }
  }

  /** Throwing away promises that are not wired. */
  lemma DropKeepsSound(n: Net, leaves: seq<Leaf>)
    requires Sound(n)
    requires forall i :: 0 <= i < |leaves| && leaves[i].OnceOf? ==> Fits(n, leaves[i])
    requires forall c, i :: IsWire(n.plan, c, i) && Wire(n.plan, c, i).OnceOf? ==> Wire(n.plan, c, i) !in leaves
    ensures Sound(n.WithJobs(DropAll(n.plan.jobs, leaves)))
  {
    var n' := n.WithJobs(DropAll(n.plan.jobs, leaves));
    SameSources(n.plan.jobs, n'.plan.jobs);
    SameWires(n.plan, n'.plan);
    forall d, i: nat | IsWire(n'.plan, d, i) ensures Fits(n', Wire(n'.plan, d, i)) {
      assert Fits(n, Wire(n.plan, d, i));
    }
    forall d, i: nat, e, k: nat | IsWire(n'.plan, d, i) && IsWire(n'.plan, e, k) && (d, i) != (e, k)
      ensures Tolerable(Wire(n'.plan, d, i), Wire(n'.plan, e, k))
    {
      assert Tolerable(Wire(n.plan, d, i), Wire(n.plan, e, k));
    }
    forall j | j in n'.plan.jobs ensures JobRight(n'.plan.jobs[j]) {
      assert JobRight(n.plan.jobs[j]);
    }
  }

  lemma FreshIsNotWired(n: Net, left: Leaf, c: Option<JobId>, i: nat)
    requires AllFit(n) && left.OnceOf? && Fresh(n, left) && IsWire(n.plan, c, i)
    ensures Wire(n.plan, c, i) != left
  {
    assert Fits(n, Wire(n.plan, c, i));
  }

  lemma UseTupleKeepsSound(n: Net, c: JobId, js: seq<JobId>)
    requires Sound(n) && c in n.plan.jobs && Distinct(js) && forall j :: j in js ==> j in n.plan.jobs
    ensures Sound(UseTuple(n, c, js).0)
  {
    var (taken, leaves, error) := TakeAll(n.plan.jobs, js);
    TakeAllIsTaken(n, js);
    var n1 := n.WithJobs(taken);
    forall i | 0 <= i < |leaves|
      ensures Fresh(n, leaves[i]) && Fits(n1, leaves[i]) && SourceIn((set j | j in js), leaves[i])
    {
      assert TakenLeaf(n, taken, leaves[i], js);
    }
    if error.Some? {
      SameWires(n.plan, n1.plan);
      forall d, i: nat | IsWire(n1.plan, d, i) && Wire(n1.plan, d, i).OnceOf? ensures Wire(n1.plan, d, i) !in leaves {
        forall k | 0 <= k < |leaves| ensures leaves[k] != Wire(n1.plan, d, i) {
          if leaves[k].OnceOf? {
            FreshIsNotWired(n, leaves[k], d, i);
          }
        }
      }
      DropKeepsSound(n1, leaves);
    } else if !n.plan.jobs[c].flavor.FlavorNone? {
      GiveKeepsSound(n, n1, c, All(leaves), set j | j in js);
    }
  }

  lemma ClaimKeepsSound(n: Net, j: JobId, r: Range)
    requires Sound(n) && j in n.plan.jobs && n.plan.jobs[j].output.DisjointOut?
    ensures var output := DisjointOut(Accept(n.plan.jobs[j].output.bounds, r));
            Sound(n.WithJobs(n.plan.jobs[j := n.plan.jobs[j].(output := output)]))
  {
    var bounds := n.plan.jobs[j].output.bounds;
    var n' := n.WithJobs(n.plan.jobs[j := n.plan.jobs[j].(output := DisjointOut(Accept(bounds, r)))]);
    forall leaf | Fits(n, leaf) ensures Fits(n', leaf) {
    }
    forall k | k in n'.plan.jobs ensures JobRight(n'.plan.jobs[k]) {
      assert JobRight(n.plan.jobs[k]);
    }
    OutputsKeepSound(n, n');
  }

  lemma UsePartKeepsSound(n: Net, c: JobId, j: JobId, claim: Claim)
    requires Sound(n) && c in n.plan.jobs && j in n.plan.jobs && c != j
    ensures Sound(UsePart(n, c, j, claim).0)
  {
    var jobs := n.plan.jobs;
    if jobs[j].output.DisjointOut? && !AnyOverlap(jobs[j].output.bounds, claim.Bounds()) {
      var bounds := Accept(jobs[j].output.bounds, claim.Bounds());
      var n1 := n.WithJobs(jobs[j := jobs[j].(output := DisjointOut(bounds))]);
      ClaimKeepsSound(n, j, claim.Bounds());
      assert bounds[|bounds| - 1] == claim.Bounds();
      var leaf := PartOf(j, jobs[j].gen, claim);
      assert Fresh(n, leaf) && Fits(n1, leaf);
      if !jobs[c].flavor.FlavorNone? && !jobs[c].kind.Single? {
        OneKeepsSound(n, n1, c, leaf, {j});
      }
    }
  }

  lemma UseFlowInputKeepsSound(n: Net, c: JobId)
    requires Sound(n) && c in n.plan.jobs
    ensures Sound(UseFlowInput(n, c).0)
  {
    if !n.plan.jobs[c].flavor.FlavorNone? && !n.inputTaken {
      var n1 := n.(inputTaken := true);
      OutputsKeepSound(n, n1);
      OneKeepsSound(n, n1, c, FlowIn, {});
    }
  }

  lemma SetOutputKeepsSound(n: Net, n1: Net, leaf: Leaf)
    requires Sound(n) && Sound(n1) && SameInputs(n.plan.jobs, n1.plan.jobs)
    requires n.plan.output.None? && n1.plan.output.None? && Fresh(n, leaf) && Fits(n1, leaf) && !leaf.FlowIn?
    ensures Sound(n1.(plan := n1.plan.(output := Some(leaf))))
  {
    var n' := n1.(plan := n1.plan.(output := Some(leaf)));
    assert Extends(n1.plan, n'.plan, None, 0, [leaf]) && Extends(n.plan, n'.plan, None, 0, [leaf]);
    forall d, i: nat | IsWire(n1.plan, d, i) ensures Fits(n', Wire(n1.plan, d, i)) {
      assert Fits(n1, Wire(n1.plan, d, i));
    }
    ExtendKeepsFit(n1, n', None, 0, [leaf]);
    ExtendKeepsTolerable(n, n'.plan, None, 0, [leaf]);
  }

  lemma SetFlowOutputKeepsSound(n: Net, j: JobId)
    requires Sound(n) && j in n.plan.jobs
    ensures Sound(SetFlowOutput(n, j).0)
  {
    var jobs := n.plan.jobs;
    match jobs[j].output {
      case OnceOut(true) =>
        var n1 := n.WithJobs(Take(jobs, j));
        TakeKeepsSound(n, j);
        if n.plan.output.Some? {
          SameWires(n.plan, n1.plan);
          forall c, i: nat | IsWire(n1.plan, c, i) && Wire(n1.plan, c, i).OnceOf?
            ensures Wire(n1.plan, c, i) !in [OnceOf(j)]
          {
            FreshIsNotWired(n, OnceOf(j), c, i);
          }
          DropKeepsSound(n1, [OnceOf(j)]);
        } else {
          SetOutputKeepsSound(n, n1, OnceOf(j));
        }
      case ReusableOut =>
        if n.plan.output.None? {
          SetOutputKeepsSound(n, n, ReuseOf(j, jobs[j].gen));
        }
      case _ =>
    }
  }

  lemma RemakeKeepsSound(n: Net, j: JobId, output: OutputKind)
    requires Sound(n) && j in n.plan.jobs
    ensures Sound(Remake(n, j, output).0)
  {
    if n.plan.jobs[j].output != OnceOut(false) {
      var n' := Remake(n, j, output).0;
      forall leaf | Fits(n, leaf) ensures Fits(n', leaf) {
      }
      forall k | k in n'.plan.jobs ensures JobRight(n'.plan.jobs[k]) {
        assert JobRight(n.plan.jobs[k]);
      }
      OutputsKeepSound(n, n');
    }
  }

  lemma FunnelKeepsLeaves(job: Job)
    requires JobRight(job) && job.flavor.FlavorSingle?
    ensures Leaves(Funnel(if job.kind.Single? then [Spread(job.kind.source)] else [])) == Leaves(job.kind)
  {
    if job.kind.Single? {
      var e := [Spread(job.kind.source)];
      assert e[..0] == [] && EntryLeaves(e) == EntryLeaves(e[..0]) + SourceLeaves(job.kind.source);
    }
  }

  lemma MakeFunnelKeepsSound(n: Net, c: JobId)
    requires Sound(n) && c in n.plan.jobs
    ensures Sound(MakeFunnel(n, c).0)
  {
    if n.plan.jobs[c].flavor.FlavorSingle? {
      var n' := MakeFunnel(n, c).0;
      assert JobRight(n.plan.jobs[c]);
      FunnelKeepsLeaves(n.plan.jobs[c]);
      forall j, i | j in n'.plan.jobs && 0 <= i < |Leaves(n'.plan.jobs[j].kind)|
        ensures SourceIn(n'.plan.jobs[j].deps, Leaves(n'.plan.jobs[j].kind)[i])
      {
        assert SourceIn(n.plan.jobs[j].deps, Leaves(n.plan.jobs[j].kind)[i]);
      }
      forall d: Option<JobId> | d.Some? ==> d.value in n.plan.jobs ensures Wires(n'.plan, d) == Wires(n.plan, d) {
      }
      SameLeavesKeepWires(n, n');
    }
  }

  lemma SameLeavesKeepWires(n: Net, n': Net)
    requires AllFit(n) && AllTolerable(n.plan) && n'.plan.jobs.Keys == n.plan.jobs.Keys && n.inputTaken == n'.inputTaken
    requires forall d: Option<JobId> :: (d.Some? ==> d.value in n.plan.jobs) ==> Wires(n'.plan, d) == Wires(n.plan, d)
    requires forall leaf :: Fits(n, leaf) ==> Fits(n', leaf)
    ensures AllFit(n') && AllTolerable(n'.plan)
  {
    forall d, i: nat | IsWire(n'.plan, d, i) ensures IsWire(n.plan, d, i) && Wire(n'.plan, d, i) == Wire(n.plan, d, i) {
      assert Wires(n'.plan, d) == Wires(n.plan, d);
    }
    forall d, i: nat | IsWire(n'.plan, d, i) ensures Fits(n', Wire(n'.plan, d, i)) {
      assert Fits(n, Wire(n.plan, d, i));
    }
    forall d, i: nat, e, k: nat | IsWire(n'.plan, d, i) && IsWire(n'.plan, e, k) && (d, i) != (e, k)
      ensures Tolerable(Wire(n'.plan, d, i), Wire(n'.plan, e, k))
    {
      assert Tolerable(Wire(n.plan, d, i), Wire(n.plan, e, k));
    }
  }

  lemma AddJobKeepsSound(n: Net, id: JobId, takesInput: bool, output: OutputKind)
    requires Sound(n) && id !in n.plan.jobs
    ensures Sound(AddJob(n, id, takesInput, output).0)
  {
    var n' := AddJob(n, id, takesInput, output).0;
    assert JobRight(n'.plan.jobs[id]) && Leaves(n'.plan.jobs[id].kind) == [];
    forall j, i | j in n'.plan.jobs && 0 <= i < |Leaves(n'.plan.jobs[j].kind)|
      ensures SourceIn(n'.plan.jobs[j].deps, Leaves(n'.plan.jobs[j].kind)[i])
    {
      assert SourceIn(n.plan.jobs[j].deps, Leaves(n.plan.jobs[j].kind)[i]);
    }
    forall d, i: nat | IsWire(n'.plan, d, i) ensures IsWire(n.plan, d, i) && Wire(n'.plan, d, i) == Wire(n.plan, d, i) {
    }
    forall d, i: nat | IsWire(n'.plan, d, i) ensures Fits(n', Wire(n'.plan, d, i)) {
      assert Fits(n, Wire(n.plan, d, i));
    }
    forall d, i: nat, e, k: nat | IsWire(n'.plan, d, i) && IsWire(n'.plan, e, k) && (d, i) != (e, k)
      ensures Tolerable(Wire(n'.plan, d, i), Wire(n'.plan, e, k))
    {
      assert Tolerable(Wire(n.plan, d, i), Wire(n.plan, e, k));
    }
    forall j | j in n'.plan.jobs ensures JobRight(n'.plan.jobs[j]) {
      assert j in n.plan.jobs ==> JobRight(n.plan.jobs[j]);
    }
  }

  /** Every wiring operation, whether it succeeds or fails, keeps the wiring sound. */
  lemma PerformKeepsSound(n: Net, op: WireOp)
    requires Sound(n) && Allowed(n, op)
    ensures Sound(Perform(n, op).0)
  {
    match op
    case DoAdd(id, takesInput, reusable) =>
      AddJobKeepsSound(n, id, takesInput, if reusable then ReusableOut else OnceOut(true));
    case DoUse(c, j) => UseOutputKeepsSound(n, c, j);
    case DoTuple(c, js) => UseTupleKeepsSound(n, c, js);
    case DoPart(c, j, claim) => UsePartKeepsSound(n, c, j, claim);
    case DoFlowInput(c) => UseFlowInputKeepsSound(n, c);
    case DoFlowOutput(j) => SetFlowOutputKeepsSound(n, j);
    case DoReusable(j) => RemakeKeepsSound(n, j, ReusableOut);
    case DoDisjointed(j) => RemakeKeepsSound(n, j, DisjointOut([]));
    case DoFunnel(c) => MakeFunnelKeepsSound(n, c);
    case DoDepend(c, d) => AddDepsKeepsSound(n, c, {d});
  }

  // ---------------------------------------------------------------------------------------------
  // Whole flows
  // ---------------------------------------------------------------------------------------------

  ghost predicate IsBuild(build: seq<Net>, act: Action, input: Data, ops: seq<WireOp>) {
    && |build| == |ops| + 1 && build[0] == Net(Plan(map[], act, input, None), false)
    && forall i :: 0 <= i < |ops| ==> BuildStep(build[i], ops[i], build[i + 1])
  }

  ghost predicate BuildStep(before: Net, op: WireOp, n: Net) {
    Allowed(before, op) && n == Perform(before, op).0
  }

  lemma {:induction false} BuiltIsSound(build: seq<Net>, act: Action, input: Data, ops: seq<WireOp>, i: nat)
    requires IsBuild(build, act, input, ops) && i < |build|
    ensures Sound(build[i])
  {
    if i > 0 {
      BuiltIsSound(build, act, input, ops, i - 1);
      assert BuildStep(build[i - 1], ops[i - 1], build[i]);
      PerformKeepsSound(build[i - 1], ops[i - 1]);
    }
  }

  /** Two wired claims to one output share an index: both start unbounded, and the checker missed it. */
  ghost predicate MissedClaims(p: Plan, c: Option<JobId>, i: nat, d: Option<JobId>, k: nat)
    requires IsWire(p, c, i) && IsWire(p, d, k)
  {
    (c, i) != (d, k) && Clash(Wire(p, c, i), Wire(p, d, k)) && Wire(p, c, i).PartOf?
  }

  ghost predicate NothingMissed(p: Plan) {
    forall c, i: nat, d, k: nat :: IsWire(p, c, i) && IsWire(p, d, k) ==> !MissedClaims(p, c, i, d, k)
  }

  /** A flow built by any sequence of wiring calls can be executed as intended exactly if every explicit
      dependency is a job of the flow and no two claims meet in the overlap checker's blind spot. */
  lemma SoundIsWellWired(n: Net)
    requires Sound(n)
    ensures WellWired(n.plan) <==> Closed(DepsOf(n.plan.jobs)) && NothingMissed(n.plan)
  {
    var p := n.plan;
    if Closed(DepsOf(p.jobs)) && NothingMissed(p) {
      forall c, i: nat, d, k: nat | IsWire(p, c, i) && IsWire(p, d, k) && (c, i) != (d, k)
        ensures !Clash(Wire(p, c, i), Wire(p, d, k))
      {
        assert Tolerable(Wire(p, c, i), Wire(p, d, k)) && !MissedClaims(p, c, i, d, k);
      }
      forall c, i: nat | IsWire(p, c, i) ensures SourceIn(p.jobs.Keys, Wire(p, c, i)) && KindMatches(p, Wire(p, c, i)) {
        assert Fits(n, Wire(p, c, i));
      }
      if p.output.Some? {
        assert IsWire(p, None, 0) && Wire(p, None, 0) == p.output.value && Fits(n, Wire(p, None, 0));
      }
    }
  }

  /** A flow built by wiring calls, none of which refers to a job it does not have or claims what is claimed
      already, is well wired: every property of its execution holds. */
  lemma BuiltIsWellWired(build: seq<Net>, act: Action, input: Data, ops: seq<WireOp>)
    requires IsBuild(build, act, input, ops)
    ensures var p := build[|ops|].plan;
            WellWired(p) <==> Closed(DepsOf(p.jobs)) && NothingMissed(p)
  {
    BuiltIsSound(build, act, input, ops, |ops|);
    SoundIsWellWired(build[|ops|]);
  }

  /** Missed claims are exactly that: in the blind spot. */
  lemma MissedIsBlindSpot(n: Net, c: Option<JobId>, i: nat, d: Option<JobId>, k: nat)
    requires Sound(n) && IsWire(n.plan, c, i) && IsWire(n.plan, d, k) && MissedClaims(n.plan, c, i, d, k)
    ensures Wire(n.plan, c, i).PartOf? && Wire(n.plan, d, k).PartOf?
    ensures BlindSpot(Wire(n.plan, c, i).claim.Bounds(), Wire(n.plan, d, k).claim.Bounds())
  {
    assert Tolerable(Wire(n.plan, c, i), Wire(n.plan, d, k));
  }

  // ---------------------------------------------------------------------------------------------
  // The flow itself
  // ---------------------------------------------------------------------------------------------

  lemma DepsFirst(jobs: JobMap, c: JobId, s: Source, deps: set<JobId>)
    requires c in jobs
    ensures SetKind(AddDeps(jobs, c, deps), c, s) == Give(jobs, c, s, deps)
  {
    assert Displaced(AddDeps(jobs, c, deps)[c]) == Displaced(jobs[c]);
  }

  lemma DepsBeforeTake(jobs: JobMap, c: JobId, j: JobId, deps: set<JobId>)
    requires c in jobs && j in jobs && c != j
    ensures Take(AddDeps(jobs, c, deps), j) == AddDeps(Take(jobs, j), c, deps)
  {
  }

  lemma NothingToDrop(jobs: JobMap, leaves: seq<Leaf>)
    requires forall i :: 0 <= i < |leaves| ==> !leaves[i].OnceOf?
    ensures DropAll(jobs, leaves) == jobs
  {
  }

  // What a caller learns from a call, besides that it is the operation `Perform` specifies.

  /** No output has got a new channel, and only the input of `c` may have changed. */
  ghost predicate OthersInputsKept(before: JobMap, after: JobMap, c: JobId) {
    && after.Keys == before.Keys
    && (forall j :: j in before ==> after[j].gen == before[j].gen)
    && forall j :: j in before && j != c ==>
         after[j].kind == before[j].kind && after[j].deps == before[j].deps && after[j].flavor == before[j].flavor
  }

  ghost predicate OthersKept(before: JobMap, after: JobMap, j: JobId) {
    after.Keys == before.Keys && forall k :: k in before && k != j ==> after[k] == before[k]
  }

  /** An output whose promise can be taken. */
  predicate Usable(job: Job) {
    job.output.ReusableOut? || job.output == OnceOut(true)
  }

  /** The checker of a disjoint output has room for a claim. */
  predicate ClaimFree(job: Job, claim: Claim) {
    job.output.DisjointOut? && !AnyOverlap(job.output.bounds, claim.Bounds())
  }

  predicate IsFrom(p: Plan, leaf: Leaf, j: JobId) {
    !leaf.FlowIn? && leaf.job == j && j in p.jobs
  }

  /** The source is the whole of a single input, or comes last in a funnel, as one item. */
  ghost predicate Gains(before: Job, after: Job, s: Source) {
    after.flavor == before.flavor &&
    match before.kind
    case Funnel(entries) => after.kind == Funnel(entries + [Item(s)])
    case _ => after.kind == Single(s)
  }

  /** The promise that `job`, whose output is not disjoint, gives out. */
  ghost predicate PromiseOf(jobs: JobMap, j: JobId, leaf: Leaf) {
    && j in jobs
    && (jobs[j].output.OnceOut? ==> leaf == OnceOf(j))
    && (jobs[j].output.ReusableOut? ==> leaf == ReuseOf(j, jobs[j].gen))
  }

  ghost predicate PromisesOf(jobs: JobMap, js: seq<JobId>, leaves: seq<Leaf>) {
    |leaves| == |js| && forall i :: 0 <= i < |js| ==> PromiseOf(jobs, js[i], leaves[i])
  }

  /** A whole output can be used exactly if the job takes input and the promise is there; it is then the input, or
      the last item of it, and the producer a dependency.  Otherwise no input changes. */
  ghost predicate OutputUsed(before: JobMap, after: JobMap, c: JobId, j: JobId, error: Option<WireError>)
    requires c in before && j in before
  {
    && OthersInputsKept(before, after, c)
    && (error.None? <==> !before[c].flavor.FlavorNone? && Usable(before[j]))
    && (error.None? ==>
          && (exists leaf :: PromiseOf(before, j, leaf) && Gains(before[c], after[c], One(leaf)))
          && after[c].deps == before[c].deps + {j}
          && after[j].output == if before[j].output.OnceOut? then OnceOut(false) else ReusableOut)
    && (error.Some? ==>
          && error == Some(if before[c].flavor.FlavorNone? || before[j].output.DisjointOut?
                           then OutputCanNotBeUsedAsInput else OutputCanNotBeReused)
          && after == if error == Some(OutputCanNotBeReused) && before[c].flavor.FlavorSingle? then
                        before[c := before[c].(deps := before[c].deps + {j})]
                      else before)
  }

  lemma GiveGains(jobs: JobMap, c: JobId, s: Source, deps: set<JobId>)
    requires c in jobs
    ensures var after := Give(jobs, c, s, deps);
            && OthersInputsKept(jobs, after, c) && Gains(jobs[c], after[c], s)
            && after[c].deps == jobs[c].deps + deps
            && forall j :: j in jobs ==> after[j].output == jobs[j].output
  {
  }

  lemma GivenOutputIsRight(jobs: JobMap, taken: JobMap, c: JobId, j: JobId, leaf: Leaf)
    requires c in jobs && j in jobs && c != j && !jobs[c].flavor.FlavorNone? && Usable(jobs[j])
    requires PromiseOf(jobs, j, leaf) && taken == if jobs[j].output.OnceOut? then Take(jobs, j) else jobs
    ensures OutputUsed(jobs, Give(taken, c, One(leaf), {j}), c, j, None)
  {
    GiveGains(taken, c, One(leaf), {j});
  }

  lemma UseOutputIsRight(n: Net, c: JobId, j: JobId)
    requires Allowed(n, DoUse(c, j))
    ensures OutputUsed(n.plan.jobs, UseOutput(n, c, j).0.plan.jobs, c, j, UseOutput(n, c, j).1)
  {
    var jobs := n.plan.jobs;
    var leaf := if jobs[j].output.OnceOut? then OnceOf(j) else ReuseOf(j, jobs[j].gen);
    if !jobs[c].flavor.FlavorNone? && Usable(jobs[j]) {
      var taken := if jobs[j].output.OnceOut? then Take(jobs, j) else jobs;
      assert UseOutput(n, c, j) == (n.WithJobs(Give(taken, c, One(leaf), {j})), None);
      GivenOutputIsRight(jobs, taken, c, j, leaf);
    }
  }

  /** The promises of the outputs up to the first that cannot be used have been taken, in order. */
  ghost predicate TupleTaken(before: JobMap, after: JobMap, js: seq<JobId>, leaves: seq<Leaf>,
                             error: Option<WireError>)
    requires forall j :: j in js ==> j in before
  {
    && |leaves| <= |js| && PromisesOf(before, js[..|leaves|], leaves)
    && (forall i :: 0 <= i < |leaves| ==> Usable(before[js[i]]))
    && (error.None? <==> |leaves| == |js|)
    && (error.Some? ==>
          && !Usable(before[js[|leaves|]])
          && error == Some(if before[js[|leaves|]].output.OnceOut? then OutputAlreadyUsed else NotYetSupported))
    && after.Keys == before.Keys
    && forall j :: j in before ==> after[j] == if j in js[..|leaves|] then Spent(before[j]) else before[j]
  }

  /** The job with its use-once promise given out. */
  function Spent(job: Job): Job {
    if job.output.OnceOut? then job.(output := OnceOut(false)) else job
  }

  lemma {:induction false} TakeAllInOrder(jobs: JobMap, js: seq<JobId>)
    requires Distinct(js) && forall j :: j in js ==> j in jobs
    ensures var (taken, leaves, error) := TakeAll(jobs, js); TupleTaken(jobs, taken, js, leaves, error)
  {
    if js != [] {
      var rest, j := js[..|js| - 1], js[|js| - 1];
      assert js == rest + [j] && j !in rest;
      TakeAllInOrder(jobs, rest);
      var (taken, leaves, error) := TakeAll(jobs, rest);
      if error.Some? {
        assert rest[..|leaves|] == js[..|leaves|];
      } else {
        NextInOrder(jobs, rest, j, taken, leaves);
      }
    }
  }

  lemma NextInOrder(jobs: JobMap, rest: seq<JobId>, j: JobId, taken: JobMap, leaves: seq<Leaf>)
    requires (forall k :: k in rest ==> k in jobs) && j in jobs && j !in rest
    requires TupleTaken(jobs, taken, rest, leaves, None)
    ensures match taken[j].output
            case OnceOut(true) => TupleTaken(jobs, Take(taken, j), rest + [j], leaves + [OnceOf(j)], None)
            case OnceOut(false) => TupleTaken(jobs, taken, rest + [j], leaves, Some(OutputAlreadyUsed))
            case ReusableOut => TupleTaken(jobs, taken, rest + [j], leaves + [ReuseOf(j, taken[j].gen)], None)
            case DisjointOut(_) => TupleTaken(jobs, taken, rest + [j], leaves, Some(NotYetSupported))
  {
    var js := rest + [j];
    assert rest[..|leaves|] == rest && js[..|rest|] == rest && js[..|js|] == js && taken[j] == jobs[j];
  }

  /** A tuple can be used exactly if the job takes input and every output has its promise; the input then gains the
      tuple of these promises, in the order of the outputs.  Otherwise no input changes. */
  ghost predicate TupleUsed(before: JobMap, after: JobMap, c: JobId, js: seq<JobId>, error: Option<WireError>)
    requires c in before && forall j :: j in js ==> j in before
  {
    && OthersInputsKept(before, after, c)
    && (error.None? <==> !before[c].flavor.FlavorNone? && forall i :: 0 <= i < |js| ==> Usable(before[js[i]]))
    && (error.None? ==>
          && (exists leaves :: PromisesOf(before, js, leaves) && Gains(before[c], after[c], All(leaves)))
          && after[c].deps == before[c].deps + set j | j in js)
    && (error.Some? ==>
          && SameInputs(before, after)
          && (error == Some(OutputCanNotBeUsedAsInput) <==> before[c].flavor.FlavorNone?))
  }

  lemma SpentKeepsInputs(jobs: JobMap, taken: JobMap, js: seq<JobId>, leaves: seq<Leaf>, error: Option<WireError>)
    requires (forall j :: j in js ==> j in jobs) && TupleTaken(jobs, taken, js, leaves, error)
    ensures taken.Keys == jobs.Keys
    ensures forall j :: j in jobs ==> taken[j].kind == jobs[j].kind && taken[j].deps == jobs[j].deps
                                      && taken[j].flavor == jobs[j].flavor && taken[j].gen == jobs[j].gen
    ensures SameInputs(jobs, DropAll(taken, leaves))
  {
  }

  lemma GivenTupleIsRight(jobs: JobMap, taken: JobMap, c: JobId, js: seq<JobId>, leaves: seq<Leaf>)
    requires c in jobs && (forall j :: j in js ==> j in jobs) && !jobs[c].flavor.FlavorNone?
    requires TupleTaken(jobs, taken, js, leaves, None)
    ensures c in taken && TupleUsed(jobs, Give(taken, c, All(leaves), set j | j in js), c, js, None)
  {
    assert js[..|leaves|] == js;
    SpentKeepsInputs(jobs, taken, js, leaves, None);
    GiveGains(taken, c, All(leaves), set j | j in js);
  }

  lemma RefusedTupleIsRight(jobs: JobMap, taken: JobMap, c: JobId, js: seq<JobId>, leaves: seq<Leaf>,
                            error: Option<WireError>)
    requires c in jobs && (forall j :: j in js ==> j in jobs) && !jobs[c].flavor.FlavorNone?
    requires TupleTaken(jobs, taken, js, leaves, error) && error.Some?
    ensures TupleUsed(jobs, DropAll(taken, leaves), c, js, error)
  {
    SpentKeepsInputs(jobs, taken, js, leaves, error);
  }

  lemma UseTupleIsRight(n: Net, c: JobId, js: seq<JobId>)
    requires Allowed(n, DoTuple(c, js))
    ensures TupleUsed(n.plan.jobs, UseTuple(n, c, js).0.plan.jobs, c, js, UseTuple(n, c, js).1)
  {
    var jobs := n.plan.jobs;
    if !jobs[c].flavor.FlavorNone? {
      TakeAllInOrder(jobs, js);
      var (taken, leaves, error) := TakeAll(jobs, js);
      if error.None? {
        GivenTupleIsRight(jobs, taken, c, js, leaves);
      } else {
        RefusedTupleIsRight(jobs, taken, c, js, leaves, error);
      }
    }
  }

  /** A claim succeeds exactly if the checker has room for it and the input takes it; it then comes last in the
      input of `c`, which depends on `j`.  Otherwise no input changes, but a claim there was room for is recorded. */
  ghost predicate PartUsed(before: JobMap, after: JobMap, c: JobId, j: JobId, claim: Claim, error: Option<WireError>)
    requires c in before && j in before
  {
    && after.Keys == before.Keys
    && (error.None? <==> ClaimFree(before[j], claim) && !before[c].flavor.FlavorNone? && !before[c].kind.Single?)
    && (error.None? ==>
          && Gains(before[c], after[c], One(PartOf(j, before[j].gen, claim)))
          && after[c].deps == before[c].deps + {j} && OthersInputsKept(before, after, c))
    && (error.Some? ==> SameInputs(before, after))
    && after[j].output ==
       if ClaimFree(before[j], claim) then DisjointOut(before[j].output.bounds + [claim.Bounds()])
       else before[j].output
  }

  lemma UsePartIsRight(n: Net, c: JobId, j: JobId, claim: Claim)
    requires Allowed(n, DoPart(c, j, claim))
    ensures PartUsed(n.plan.jobs, UsePart(n, c, j, claim).0.plan.jobs, c, j, claim, UsePart(n, c, j, claim).1)
  {
  }

  /** No promise of `j` that is wired reads what `j` will send. */
  ghost predicate CutOff(p: Plan, j: JobId) {
    forall c, i: nat :: IsWire(p, c, i) && IsFrom(p, Wire(p, c, i), j) ==> !Live(p, Wire(p, c, i))
  }

  lemma RemakeCutsOff(n: Net, j: JobId, output: OutputKind)
    requires AllFit(n) && j in n.plan.jobs && n.plan.jobs[j].output != OnceOut(false)
    ensures CutOff(Remake(n, j, output).0.plan, j)
  {
    var p' := Remake(n, j, output).0.plan;
    SameWires(n.plan, p');
    forall c, i: nat | IsWire(p', c, i) && IsFrom(p', Wire(p', c, i), j) ensures !Live(p', Wire(p', c, i))
    {
      assert Fits(n, Wire(n.plan, c, i));
    }
  }

  lemma RemakeCutsOffIfSound(n: Net, j: JobId, output: OutputKind)
    requires j in n.plan.jobs && n.plan.jobs[j].output != OnceOut(false)
    ensures Sound(n) ==> CutOff(Remake(n, j, output).0.plan, j)
  {
    if Sound(n) {
      RemakeCutsOff(n, j, output);
    }
  }

  lemma FunnelKeepsLeavesIfSound(n: Net, c: JobId)
    requires c in n.plan.jobs && n.plan.jobs[c].flavor.FlavorSingle?
    ensures Sound(n) ==> Leaves(MakeFunnel(n, c).0.plan.jobs[c].kind) == Leaves(n.plan.jobs[c].kind)
  {
    if Sound(n) {
      assert JobRight(n.plan.jobs[c]);
      FunnelKeepsLeaves(n.plan.jobs[c]);
    }
  }

  lemma PerformStaysSound(n: Net, op: WireOp)
    requires Allowed(n, op)
    ensures Sound(n) ==> Sound(Perform(n, op).0)
  {
    if Sound(n) {
      PerformKeepsSound(n, op);
    }
  }

  /** Every method is an operation of `Perform`, so a flow built with them is sound by `BuiltIsSound`. */
  class Flow {
    const act: Action
    const input: Data
    var jobs: JobMap
    var inputTaken: bool
    var output: Option<Leaf>

    ghost function View(): Net
      reads this
    {
      Net(Plan(jobs, act, input, output), inputTaken)
    }

    constructor (act: Action, input: Data)
      ensures View() == Net(Plan(map[], act, input, None), false)
    {
      this.act, this.input := act, input;
      jobs, inputTaken, output := map[], false, None;
    }

    method Add(id: JobId, takesInput: bool, reusable: bool)
      requires Allowed(View(), DoAdd(id, takesInput, reusable))
      modifies this
      ensures View() == Perform(old(View()), DoAdd(id, takesInput, reusable)).0
      ensures old(Sound(View())) ==> Sound(View())
      ensures jobs.Keys == old(jobs).Keys + {id} && forall j :: j in old(jobs) ==> jobs[j] == old(jobs)[j]
      ensures jobs[id].kind.NoInput? && jobs[id].deps == {} && jobs[id].gen == 0 && !jobs[id].dropped
      ensures jobs[id].flavor.FlavorNone? <==> !takesInput
      ensures jobs[id].output == if reusable then ReusableOut else OnceOut(true)
    {
      PerformStaysSound(View(), DoAdd(id, takesInput, reusable));
      var flavor := if takesInput then FlavorSingle else FlavorNone;
      jobs := jobs[id := Job(flavor, NoInput, {}, if reusable then ReusableOut else OnceOut(true), 0, false)];
    }

    method SetSource(c: JobId, source: Source)
      requires c in jobs
      modifies `jobs
      ensures jobs == SetKind(old(jobs), c, source)
    {
      match jobs[c].kind {
        case Funnel(entries) =>
          NothingToDrop(jobs, []);
          jobs := jobs[c := jobs[c].(kind := Funnel(entries + [Item(source)]))];
        case _ =>
          var displaced := Displaced(jobs[c]);
          jobs := DropAll(jobs, displaced);
          jobs := jobs[c := jobs[c].(kind := Single(source))];
      }
    }

    method DependsOn(c: JobId, id: JobId)
      requires Allowed(View(), DoDepend(c, id))
      modifies `jobs
      ensures View() == Perform(old(View()), DoDepend(c, id)).0
      ensures old(Sound(View())) ==> Sound(View())
      ensures jobs[c].deps == old(jobs)[c].deps + {id} && jobs[c].kind == old(jobs)[c].kind
      ensures OthersKept(old(jobs), jobs, c)
    {
      PerformStaysSound(View(), DoDepend(c, id));
      jobs := jobs[c := jobs[c].(deps := jobs[c].deps + {id})];
    }

    /** A whole output as the input of a job. */
    method UseOutput(c: JobId, j: JobId) returns (error: Option<WireError>)
      requires Allowed(View(), DoUse(c, j))
      modifies this
      ensures (View(), error) == Perform(old(View()), DoUse(c, j))
      ensures old(Sound(View())) ==> Sound(View())
      ensures OutputUsed(old(jobs), jobs, c, j, error)
    {
      UseOutputIsRight(View(), c, j);
      PerformStaysSound(View(), DoUse(c, j));
      match (jobs[c].flavor, jobs[j].output) {
        case (FlavorNone, _) => return Some(OutputCanNotBeUsedAsInput);
        case (_, DisjointOut(_)) => return Some(OutputCanNotBeUsedAsInput);
        case (_, ReusableOut) =>
          SetSource(c, One(ReuseOf(j, jobs[j].gen)));
          DependsOn(c, j);
        case (FlavorSingle, OnceOut(available)) =>
          DepsBeforeTake(jobs, c, j, {j});
          DepsFirst(Take(jobs, j), c, One(OnceOf(j)), {j});
          DependsOn(c, j);
          if !available {
            return Some(OutputCanNotBeReused);
          }
          jobs := Take(jobs, j);
          SetSource(c, One(OnceOf(j)));
        case (FlavorFunnel, OnceOut(available)) =>
          if !available {
            return Some(OutputCanNotBeReused);
          }
          jobs := Take(jobs, j);
          SetSource(c, One(OnceOf(j)));
          DependsOn(c, j);
      }
      return None;
    }

    /** Several outputs as the tuple a job takes.  Promises taken before the first unusable output are lost. */
    method UseTuple(c: JobId, js: seq<JobId>) returns (error: Option<WireError>)
      requires Allowed(View(), DoTuple(c, js))
      modifies this
      ensures (View(), error) == Perform(old(View()), DoTuple(c, js))
      ensures old(Sound(View())) ==> Sound(View())
      ensures TupleUsed(old(jobs), jobs, c, js, error)
    {
      UseTupleIsRight(View(), c, js);
      PerformStaysSound(View(), DoTuple(c, js));
      if jobs[c].flavor.FlavorNone? {
        return Some(OutputCanNotBeUsedAsInput);
      }
      var leaves;
      leaves, error := TakePromises(js);
      if error.Some? {
        jobs := DropAll(jobs, leaves);
        return error;
      }
      var deps := set j | j in js;
      DepsFirst(jobs, c, All(leaves), deps);
      jobs := jobs[c := jobs[c].(deps := jobs[c].deps + deps)];
      SetSource(c, All(leaves));
    }

    method TakePromises(js: seq<JobId>) returns (leaves: seq<Leaf>, error: Option<WireError>)
      requires forall j :: j in js ==> j in jobs
      modifies `jobs
      ensures (jobs, leaves, error) == TakeAll(old(jobs), js)
      ensures Distinct(js) ==> TupleTaken(old(jobs), jobs, js, leaves, error)
    {
      if Distinct(js) {
        TakeAllInOrder(jobs, js);
      }
      leaves, error := [], None;
      var i := 0;
      assert js[..0] == [];
      while i < |js| && error.None?
        invariant 0 <= i <= |js|
        invariant (jobs, leaves, error) == TakeAll(old(jobs), js[..i])
      {
        assert js[..i + 1][..i] == js[..i];
        var j := js[i];
        match jobs[j].output {
          case OnceOut(true) =>
            jobs := Take(jobs, j);
            leaves := leaves + [OnceOf(j)];
          case OnceOut(false) => error := Some(OutputAlreadyUsed);
          case ReusableOut => leaves := leaves + [ReuseOf(j, jobs[j].gen)];
          case DisjointOut(_) => error := Some(NotYetSupported);
        }
        i := i + 1;
      }
      FirstErrorStays(old(jobs), js, i);
    }

    /** A claim to an index or a range of a disjoint output. */
    method UsePart(c: JobId, j: JobId, claim: Claim) returns (error: Option<WireError>)
      requires Allowed(View(), DoPart(c, j, claim))
      modifies this
      ensures (View(), error) == Perform(old(View()), DoPart(c, j, claim))
      ensures old(Sound(View())) ==> Sound(View())
      ensures PartUsed(old(jobs), jobs, c, j, claim, error)
    {
      UsePartIsRight(View(), c, j, claim);
      PerformStaysSound(View(), DoPart(c, j, claim));
      if !jobs[j].output.DisjointOut? {
        return Some(OutputNotDisjoint);
      }
      if AnyOverlap(jobs[j].output.bounds, claim.Bounds()) {
        return Some(ClaimRefused);
      }
      jobs := jobs[j := jobs[j].(output := DisjointOut(jobs[j].output.bounds + [claim.Bounds()]))];
      match (jobs[c].flavor, jobs[c].kind) {
        case (FlavorNone, _) => return Some(UnexpectedInputSource);
        case (_, Single(_)) => return Some(InputAlreadySet);
        case (_, _) => SetSource(c, One(PartOf(j, jobs[j].gen, claim)));
      }
      DependsOn(c, j);
      return None;
    }

    method UseFlowInput(c: JobId) returns (error: Option<WireError>)
      requires Allowed(View(), DoFlowInput(c))
      modifies this
      ensures (View(), error) == Perform(old(View()), DoFlowInput(c))
      ensures old(Sound(View())) ==> Sound(View())
      ensures error.None? <==> !old(jobs)[c].flavor.FlavorNone? && !old(inputTaken)
      ensures inputTaken <==> old(inputTaken) || error.None?
      ensures error.None? ==> Gains(old(jobs)[c], jobs[c], One(FlowIn)) && jobs[c].deps == old(jobs)[c].deps
      ensures OthersInputsKept(old(jobs), jobs, c)
      ensures error.Some? ==> jobs == old(jobs)
    {
      PerformStaysSound(View(), DoFlowInput(c));
      if jobs[c].flavor.FlavorNone? {
        return Some(UnexpectedInputSource);
      }
      if inputTaken {
        return Some(FlowInputTaskAlreadySet);
      }
      inputTaken := true;
      NoNewDeps(SetKind(jobs, c, One(FlowIn)), c);
      SetSource(c, One(FlowIn));
      return None;
    }

    method SetFlowOutput(j: JobId) returns (error: Option<WireError>)
      requires Allowed(View(), DoFlowOutput(j))
      modifies this
      ensures (View(), error) == Perform(old(View()), DoFlowOutput(j))
      ensures old(Sound(View())) ==> Sound(View())
      ensures error.None? <==> Usable(old(jobs)[j]) && old(output).None?
      ensures error.None? ==> output.Some? && !output.value.FlowIn? && output.value.job == j
      ensures error.None? ==> PromiseOf(old(jobs), j, output.value) && Live(View().plan, output.value)
      ensures error.Some? ==> output == old(output)
      ensures error.Some? ==> error == Some(if Usable(old(jobs)[j]) then FlowOutputTaskAlreadySet else NoPromise)
      ensures OthersKept(old(jobs), jobs, j) && (old(jobs)[j].output.OnceOut? ==> jobs[j].output == OnceOut(false))
    {
      PerformStaysSound(View(), DoFlowOutput(j));
      match jobs[j].output {
        case OnceOut(true) =>
          jobs := Take(jobs, j);
          if output.Some? {
            jobs := DropAll(jobs, [OnceOf(j)]);
            return Some(FlowOutputTaskAlreadySet);
          }
          output := Some(OnceOf(j));
        case ReusableOut =>
          if output.Some? {
            return Some(FlowOutputTaskAlreadySet);
          }
          output := Some(ReuseOf(j, jobs[j].gen));
        case _ => return Some(NoPromise);
      }
      return None;
    }

    method MakeReusable(j: JobId) returns (error: Option<WireError>)
      requires Allowed(View(), DoReusable(j))
      modifies this
      ensures (View(), error) == Perform(old(View()), DoReusable(j))
      ensures old(Sound(View())) ==> Sound(View())
      ensures error.Some? <==> old(jobs)[j].output == OnceOut(false)
      ensures error.Some? ==> jobs == old(jobs)
      ensures error.None? ==> jobs[j].output == ReusableOut && OthersKept(old(jobs), jobs, j)
      ensures error.None? && old(Sound(View())) ==> CutOff(View().plan, j)
    {
      if jobs[j].output != OnceOut(false) {
        RemakeCutsOffIfSound(View(), j, ReusableOut);
      }
      PerformStaysSound(View(), DoReusable(j));
      if jobs[j].output == OnceOut(false) {
        return Some(OutputAlreadyUsed);
      }
      jobs := jobs[j := jobs[j].(gen := jobs[j].gen + 1, output := ReusableOut)];
      return None;
    }

    method MakeDisjointed(j: JobId) returns (error: Option<WireError>)
      requires Allowed(View(), DoDisjointed(j))
      modifies this
      ensures (View(), error) == Perform(old(View()), DoDisjointed(j))
      ensures old(Sound(View())) ==> Sound(View())
      ensures error.Some? <==> old(jobs)[j].output == OnceOut(false)
      ensures error.Some? ==> jobs == old(jobs)
      ensures error.None? ==> jobs[j].output == DisjointOut([]) && OthersKept(old(jobs), jobs, j)
      ensures error.None? && old(Sound(View())) ==> CutOff(View().plan, j)
    {
      if jobs[j].output != OnceOut(false) {
        RemakeCutsOffIfSound(View(), j, DisjointOut([]));
      }
      PerformStaysSound(View(), DoDisjointed(j));
      if jobs[j].output == OnceOut(false) {
        return Some(OutputAlreadyUsed);
      }
      jobs := jobs[j := jobs[j].(gen := jobs[j].gen + 1, output := DisjointOut([]))];
      return None;
    }

    method MakeFunnel(c: JobId) returns (error: Option<WireError>)
      requires Allowed(View(), DoFunnel(c))
      modifies this
      ensures (View(), error) == Perform(old(View()), DoFunnel(c))
      ensures old(Sound(View())) ==> Sound(View())
      ensures error.None? <==> old(jobs)[c].flavor.FlavorSingle?
      ensures error.None? ==> jobs[c].flavor.FlavorFunnel? && jobs[c].kind.Funnel? && jobs[c].deps == old(jobs)[c].deps
      ensures error.None? ==>
                jobs[c].kind.entries == if old(jobs)[c].kind.Single? then [Spread(old(jobs)[c].kind.source)] else []
      ensures error.None? && old(Sound(View())) ==> Leaves(jobs[c].kind) == Leaves(old(jobs)[c].kind)
      ensures error.Some? ==> jobs == old(jobs)
      ensures OthersKept(old(jobs), jobs, c)
    {
      if jobs[c].flavor.FlavorSingle? {
        FunnelKeepsLeavesIfSound(View(), c);
      }
      PerformStaysSound(View(), DoFunnel(c));
      if !jobs[c].flavor.FlavorSingle? {
        return Some(UnexpectedInputSource);
      }
      var entries := [];
      if jobs[c].kind.Single? {
        entries := [Spread(jobs[c].kind.source)];
      }
      jobs := jobs[c := jobs[c].(flavor := FlavorFunnel, kind := Funnel(entries))];
      return None;
    }
  }

  lemma NoNewDeps(jobs: JobMap, c: JobId)
    requires c in jobs
    ensures AddDeps(jobs, c, {}) == jobs
  {
    assert jobs[c].deps + {} == jobs[c].deps;
  }

  lemma {:induction false} FirstErrorStays(jobs: JobMap, js: seq<JobId>, i: nat)
    requires i <= |js| && forall j :: j in js ==> j in jobs
    requires TakeAll(jobs, js[..i]).2.Some? || i == |js|
    ensures TakeAll(jobs, js) == TakeAll(jobs, js[..i])
    decreases |js| - i
  {
    if i == |js| {
      assert js[..i] == js;
    } else {
      assert js[..i + 1][..i] == js[..i];
      FirstErrorStays(jobs, js, i + 1);
    }
  }
}
