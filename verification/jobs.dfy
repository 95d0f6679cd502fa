/**
  Jobs, their wiring and what they compute, after src/backend/job.rs and src/backend/funnel.rs: which
  promises a job's input is made of, how the values of those promises are put together, and the outcome of
  every job by recursion over the dependency graph.
 */
module Jobs {
  import opened Graphs
  import opened Promises
  import opened Overlap
  import opened Disjointed
  import opened Wrappers

  datatype Data = Atom(id: int) | List(items: seq<Data>) | Tuple(parts: seq<Data>)

  /** The elements of a collection.  Types are checked when jobs are wired and are not modelled. */
  function Items(d: Data): seq<Data> {
    if d.List? then d.items else []
  }

  /** A promise at the edge of a job's input.  `gen` names the output's channel at the time of wiring. */
  datatype Leaf =
    | OnceOf(job: JobId)
    | ReuseOf(job: JobId, gen: nat)
    | PartOf(job: JobId, gen: nat, claim: Claim)
    | FlowIn

  /** A single promise, or the promise set of a tuple. */
  datatype Source = One(leaf: Leaf) | All(leaves: seq<Leaf>)

  /** A funnel entry: one value (`insert`), or the elements of a collection (`insert_iter`). */
  datatype Entry = Item(source: Source) | Spread(source: Source)

  datatype InputFlavor = FlavorNone | FlavorSingle | FlavorFunnel

  datatype InputKind = NoInput | Single(source: Source) | Funnel(entries: seq<Entry>)

  datatype OutputKind = OnceOut(available: bool) | ReusableOut | DisjointOut(bounds: seq<Range>)

  /** `dropped`: the use-once promise was taken and then thrown away, so nobody receives the output. */
  datatype Job = Job(
    flavor: InputFlavor, kind: InputKind, deps: set<JobId>,
    output: OutputKind, gen: nat, dropped: bool)

  // ---------------------------------------------------------------------------------------------
  // The promises of an input, in polling order
  // ---------------------------------------------------------------------------------------------

  function SourceLeaves(s: Source): seq<Leaf> {
    match s
    case One(leaf) => [leaf]
    case All(leaves) => leaves
  }

  function EntryLeaves(entries: seq<Entry>): seq<Leaf> {
    if entries == [] then []
    else EntryLeaves(entries[..|entries| - 1]) + SourceLeaves(entries[|entries| - 1].source)
  }

  function Leaves(kind: InputKind): seq<Leaf> {
    match kind
    case NoInput => []
    case Single(s) => SourceLeaves(s)
    case Funnel(entries) => EntryLeaves(entries)
  }

  // ---------------------------------------------------------------------------------------------
  // What the action receives: by structure, and by polling promise sets
  // ---------------------------------------------------------------------------------------------

  function SourceValue(s: Source, values: seq<Data>): Data
    requires |values| == |SourceLeaves(s)|
  {
    match s
    case One(_) => values[0]
    case All(_) => Tuple(values)
  }

  function EntryValues(e: Entry, d: Data): seq<Data> {
    match e
    case Item(_) => [d]
    case Spread(_) => Items(d)
  }

  function FunnelValues(entries: seq<Entry>, values: seq<Data>): seq<Data>
    requires |values| == |EntryLeaves(entries)|
  {
    if entries == [] then []
    else
      var k := |entries| - 1;
      var n := |EntryLeaves(entries[..k])|;
      FunnelValues(entries[..k], values[..n]) + EntryValues(entries[k], SourceValue(entries[k].source, values[n..]))
  }

  /** The input the wiring describes, from the values of its promises in wiring order. */
  function Assemble(kind: InputKind, values: seq<Data>): Option<Data>
    requires |values| == |Leaves(kind)|
  {
    match kind
    case NoInput => None
    case Single(s) => Some(SourceValue(s, values))
    case Funnel(entries) => Some(List(FunnelValues(entries, values)))
  }

  /** One poll of a source whose promises answer `answers`. */
  function PollSource(s: Source, answers: seq<Poll<Data>>): Poll<Data>
    requires |answers| == |SourceLeaves(s)|
  {
    match s
    case One(_) => answers[0]
    case All(leaves) =>
      match SetState<Leaf, Data>.SetState(leaves, []).PollAll(answers).1
      case Ready(values) => Ready(Tuple(values))
      case Pending => Pending
  }

  /** One poll of each entry of a funnel, in order. */
  function PollEntries(entries: seq<Entry>, answers: seq<Poll<Data>>): (r: seq<Poll<seq<Data>>>)
    requires |answers| == |EntryLeaves(entries)|
    ensures |r| == |entries|
  {
    if entries == [] then []
    else
      var k := |entries| - 1;
      var n := |EntryLeaves(entries[..k])|;
      var last :=
        match PollSource(entries[k].source, answers[n..])
        case Ready(d) => Ready(EntryValues(entries[k], d))
        case Pending => Pending;
      PollEntries(entries[..k], answers[..n]) + [last]
  }

  function Flatten(vs: seq<seq<Data>>): seq<Data> {
    if vs == [] then [] else Flatten(vs[..|vs| - 1]) + vs[|vs| - 1]
  }

  /** The single poll `run` makes of the whole input. */
  function PollInput(kind: InputKind, answers: seq<Poll<Data>>): Poll<Option<Data>>
    requires |answers| == |Leaves(kind)|
  {
    match kind
    case NoInput => Ready(None)
    case Single(s) =>
      (match PollSource(s, answers)
       case Ready(d) => Ready(Some(d))
       case Pending => Pending)
    case Funnel(entries) =>
      match SetState<Entry, seq<Data>>.SetState(entries, []).PollAll(PollEntries(entries, answers)).1
      case Ready(vs) => Ready(Some(List(Flatten(vs))))
      case Pending => Pending
  }

  function ReadyAnswers(values: seq<Data>): (answers: seq<Poll<Data>>)
    ensures |answers| == |values| && AllReady(answers)
  {
    seq(|values|, i requires 0 <= i < |values| => Ready(values[i]))
  }

  lemma PollReadySource(s: Source, values: seq<Data>)
    requires |values| == |SourceLeaves(s)|
    ensures PollSource(s, ReadyAnswers(values)) == Ready(SourceValue(s, values))
  {
    if s.All? {
      var answers := ReadyAnswers(values);
      ReadySetYieldsValues(s.leaves, answers);
      ValuesInOrder(answers);
      assert Values(answers) == values;
    }
  }

  lemma {:induction false} PollReadyEntries(entries: seq<Entry>, values: seq<Data>)
    requires |values| == |EntryLeaves(entries)|
    ensures AllReady(PollEntries(entries, ReadyAnswers(values)))
    ensures Flatten(Values(PollEntries(entries, ReadyAnswers(values)))) == FunnelValues(entries, values)
  {
    var answers := PollEntries(entries, ReadyAnswers(values));
    if entries != [] {
      var k := |entries| - 1;
      var n := |EntryLeaves(entries[..k])|;
      assert ReadyAnswers(values)[..n] == ReadyAnswers(values[..n]);
      assert ReadyAnswers(values)[n..] == ReadyAnswers(values[n..]);
      PollReadyEntries(entries[..k], values[..n]);
      PollReadySource(entries[k].source, values[n..]);
      var earlier := PollEntries(entries[..k], ReadyAnswers(values[..n]));
      ValuesInOrder(earlier);
      ValuesInOrder(answers);
      assert Values(answers)[..k] == Values(earlier);
    }
  }

  /** When every promise is ready, the single poll of a tuple or funnel yields the values in wiring order. */
  lemma SinglePollAssembles(kind: InputKind, values: seq<Data>)
    requires |values| == |Leaves(kind)|
    ensures PollInput(kind, ReadyAnswers(values)) == Ready(Assemble(kind, values))
  {
    match kind {
      case NoInput =>
      case Single(s) => PollReadySource(s, values);
      case Funnel(entries) =>
        PollReadyEntries(entries, values);
        var answers := PollEntries(entries, ReadyAnswers(values));
        ReadySetYieldsValues(entries, answers);
    }
  }

  // ---------------------------------------------------------------------------------------------
  // Outcomes by recursion
  // ---------------------------------------------------------------------------------------------

  datatype JobError = NoInputSet | InputNotReady | UnexpectedInput | SendError

  datatype Outcome = Done(value: Data) | Failed(error: JobError) | Crashed | Blocked

  /** A pure action: what a job makes of its input, `None` for a job that takes none. */
  type Action = (JobId, Option<Data>) -> Data

  /** A wired flow about to be executed: its jobs, their actions, the flow's input and where its output
      comes from. */
  datatype Plan = Plan(jobs: map<JobId, Job>, act: Action, input: Data, output: Option<Leaf>)

  function DepsOf(jobs: map<JobId, Job>): Deps {
    map j | j in jobs :: jobs[j].deps
  }

  /** The claimed part of a vector, or nothing if the claim lies outside it. */
  function PartValue(claim: Claim, v: Data): Option<Data> {
    if !claim.InBounds(|Items(v)|) then None
    else match claim
         case Index(i) => Some(Items(v)[i])
         case Slice(_) => Some(List(Expected(Items(v), claim)))
  }

  /** What a promise delivers once its job has produced `v`, or nothing if polling it panics: its channel
      was replaced after the wiring, or the claim lies outside the vector. */
  function Delivers(p: Plan, leaf: Leaf, v: Data): Option<Data>
    requires !leaf.FlowIn? ==> leaf.job in p.jobs
  {
    match leaf
    case OnceOf(_) => Some(v)
    case ReuseOf(j, gen) => if gen == p.jobs[j].gen then Some(v) else None
    case PartOf(j, gen, claim) => if gen == p.jobs[j].gen then PartValue(claim, v) else None
    case FlowIn => Some(p.input)
  }

  function LeafValue(p: Plan, leaf: Leaf, values: map<JobId, Data>): Option<Data>
    requires SourceIn(p.jobs.Keys * values.Keys, leaf)
  {
    if leaf.FlowIn? then Some(p.input) else Delivers(p, leaf, values[leaf.job])
  }

  /** Every promise of a job's input comes from a job it depends on. */
  ghost predicate SourcesAreDependencies(jobs: map<JobId, Job>) {
    forall j, i :: j in jobs && 0 <= i < |Leaves(jobs[j].kind)| ==> SourceIn(jobs[j].deps, Leaves(jobs[j].kind)[i])
  }

  predicate SourceIn(jobs: set<JobId>, leaf: Leaf) {
    leaf.FlowIn? || leaf.job in jobs
  }

  function LeafValues(p: Plan, leaves: seq<Leaf>, values: map<JobId, Data>): (r: seq<Option<Data>>)
    requires forall i :: 0 <= i < |leaves| ==> SourceIn(p.jobs.Keys * values.Keys, leaves[i])
  {
    seq(|leaves|, i requires 0 <= i < |leaves| =>
      assert SourceIn(p.jobs.Keys * values.Keys, leaves[i]); LeafValue(p, leaves[i], values))
  }

  /** What `run` checks before it polls anything. */
  function InputCheck(job: Job): Option<JobError> {
    if !job.flavor.FlavorNone? && job.kind.NoInput? then Some(NoInputSet)
    else if job.flavor.FlavorNone? && !job.kind.NoInput? then Some(UnexpectedInput)
    else None
  }

  function Unwrap(values: seq<Option<Data>>): (r: seq<Data>)
    requires AllPresent(values)
    ensures |r| == |values|
  {
    Contents(values)
  }

  /** The outcome of a job all of whose dependencies have produced `values`. */
  function JobOutcome(p: Plan, j: JobId, values: map<JobId, Data>): Outcome
    requires j in p.jobs && p.jobs[j].deps <= p.jobs.Keys * values.Keys && SourcesAreDependencies(p.jobs)
  {
    var job := p.jobs[j];
    assert forall i :: 0 <= i < |Leaves(job.kind)| ==> SourceIn(job.deps, Leaves(job.kind)[i]);
    if InputCheck(job).Some? then Failed(InputCheck(job).value)
    else
      var inputs := LeafValues(p, Leaves(job.kind), values);
      if !AllPresent(inputs) then Crashed
      else
        var v := p.act(j, Assemble(job.kind, Unwrap(inputs)));
        if job.dropped then Failed(SendError) else Done(v)
  }

  /** Acyclic: dependencies have smaller rank. */
  ghost predicate IsRank(deps: Deps, rank: map<JobId, nat>) {
    && rank.Keys == deps.Keys
    && forall j, d :: j in deps && d in deps[j] && d in deps ==> rank[d] < rank[j]
  }

  ghost predicate Evaluable(p: Plan, rank: map<JobId, nat>) {
    Closed(DepsOf(p.jobs)) && SourcesAreDependencies(p.jobs) && IsRank(DepsOf(p.jobs), rank)
  }

  /** The outcome of a job from the outcomes of the jobs it depends on. */
  function Combine(p: Plan, j: JobId, outcomes: map<JobId, Outcome>): Outcome
    requires j in p.jobs && p.jobs[j].deps <= p.jobs.Keys * outcomes.Keys && SourcesAreDependencies(p.jobs)
  {
    var deps := p.jobs[j].deps;
    if exists d :: d in deps && !outcomes[d].Done? then Blocked
    else JobOutcome(p, j, Produced(outcomes, deps))
  }

  function Produced(outcomes: map<JobId, Outcome>, deps: set<JobId>): (values: map<JobId, Data>)
    requires forall d :: d in deps ==> d in outcomes && outcomes[d].Done?
    ensures values.Keys == deps
  {
    map d | d in deps :: outcomes[d].value
  }

  /** The outcome of a job, by evaluating everything it depends on first. */
  ghost function Eval(p: Plan, rank: map<JobId, nat>, j: JobId): Outcome
    requires Evaluable(p, rank) && j in p.jobs
    decreases rank[j]
  {
    var deps := DepsOf(p.jobs)[j];
    assert deps <= DepsOf(p.jobs).Keys;
    Combine(p, j, map d | d in deps :: Eval(p, rank, d))
  }

  /** Outcomes of the dependencies of `j`, all of which produced the given values. */
  lemma EvalFromDependencies(p: Plan, rank: map<JobId, nat>, j: JobId, values: map<JobId, Data>)
    requires Evaluable(p, rank) && j in p.jobs
    requires values.Keys == p.jobs[j].deps
    requires forall d :: d in values ==> d in p.jobs && Eval(p, rank, d) == Done(values[d])
    ensures p.jobs[j].deps <= p.jobs.Keys
    ensures Eval(p, rank, j) == JobOutcome(p, j, values)
  {
    var deps := DepsOf(p.jobs)[j];
    assert deps <= DepsOf(p.jobs).Keys;
    var outcomes := map d | d in deps :: Eval(p, rank, d);
    assert Eval(p, rank, j) == Combine(p, j, outcomes);
    CombineDone(p, j, outcomes, values);
  }

  lemma CombineDone(p: Plan, j: JobId, outcomes: map<JobId, Outcome>, values: map<JobId, Data>)
    requires j in p.jobs && SourcesAreDependencies(p.jobs)
    requires p.jobs[j].deps == outcomes.Keys == values.Keys && values.Keys <= p.jobs.Keys
    requires forall d :: d in outcomes ==> outcomes[d] == Done(values[d])
    ensures Combine(p, j, outcomes) == JobOutcome(p, j, values)
  {
    assert Produced(outcomes, p.jobs[j].deps) == values;
  }

  lemma EvalCombines(p: Plan, rank: map<JobId, nat>, j: JobId, outcomes: map<JobId, Outcome>)
    requires Evaluable(p, rank) && j in p.jobs && outcomes.Keys == p.jobs[j].deps
    requires forall d :: d in outcomes ==> d in p.jobs && outcomes[d] == Eval(p, rank, d)
    ensures p.jobs[j].deps <= p.jobs.Keys
    ensures Eval(p, rank, j) == Combine(p, j, outcomes)
  {
    var deps := DepsOf(p.jobs)[j];
    assert deps <= DepsOf(p.jobs).Keys;
    var evaluated := map d | d in deps :: Eval(p, rank, d);
    assert evaluated == outcomes;
  }

  /** The outcome does not depend on which ranking shows that the graph is acyclic. */
  lemma {:induction false} EvalIsIntrinsic(p: Plan, rank: map<JobId, nat>, other: map<JobId, nat>, j: JobId)
    requires Evaluable(p, rank) && Evaluable(p, other) && j in p.jobs
    ensures Eval(p, rank, j) == Eval(p, other, j)
    decreases rank[j]
  {
    var deps := DepsOf(p.jobs)[j];
    assert deps <= DepsOf(p.jobs).Keys;
    forall d | d in deps ensures Eval(p, rank, d) == Eval(p, other, d) {
      EvalIsIntrinsic(p, rank, other, d);
    }
    var outcomes := map d | d in deps :: Eval(p, rank, d);
    EvalCombines(p, rank, j, outcomes);
    EvalCombines(p, other, j, outcomes);
  }
}
