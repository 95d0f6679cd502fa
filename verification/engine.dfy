/**
  Execution as interleaved small steps: the scheduler dispatches and collects jobs, pool workers start
  them, poll their promises one at a time and finish them, in any order.  Follows `BackendJob::run` in
  src/backend/job.rs and the loop of src/backend/flow_backend.rs.
 */
module Engine {
  import opened Graphs
  import opened Promises
  import opened Overlap
  import opened Disjointed
  import opened Jobs
  import opened Sequences
  import opened Wrappers

  // ---------------------------------------------------------------------------------------------
  // The shared state promises are polled from
  // ---------------------------------------------------------------------------------------------

  /** A capacity-1 channel that carries one value in its life. */
  datatype Slot = Empty | Full(value: Data) | Taken

  datatype Cell =
    | OnceCell(slot: Slot)
    | ReuseCell(slot: Slot, shared: Shared<Data>)
    | PartCell(slot: Slot, buffer: Buffer<Data>)

  datatype Store = Store(cells: map<JobId, Cell>, flowIn: Slot)

  datatype LeafAnswer = Got(value: Data) | NotYet | Burst

  function FreshCell(output: OutputKind): Cell {
    match output
    case OnceOut(_) => OnceCell(Empty)
    case ReusableOut => ReuseCell(Empty, Init)
    case DisjointOut(_) => PartCell(Empty, None)
  }

  function Fill(cell: Cell, v: Data): Cell {
    match cell
    case OnceCell(_) => OnceCell(Full(v))
    case ReuseCell(_, shared) => ReuseCell(Full(v), shared)
    case PartCell(_, buffer) => PartCell(Full(v), buffer)
  }

  function SlotAnswer(slot: Slot): Poll<Data> {
    if slot.Full? then Ready(slot.value) else Pending
  }

  function PartsAnswer(slot: Slot): Poll<seq<Data>> {
    if slot.Full? then Ready(Items(slot.value)) else Pending
  }

  /** `try_recv` on a channel of its own: disconnected once its value has been received. */
  function Receive(slot: Slot): (LeafAnswer, Slot) {
    match slot
    case Empty => (NotYet, Empty)
    case Full(v) => (Got(v), Taken)
    case Taken => (Burst, Taken)
  }

  function PartAnswer(claim: Claim, d: Delivery<Data>): LeafAnswer {
    match d
    case NotReady => NotYet
    case Panicked => Burst
    case Delivered(vs) => if claim.Index? then (if vs == [] then Burst else Got(vs[0])) else Got(List(vs))
  }

  function PollCell(cell: Cell, leaf: Leaf): (LeafAnswer, Cell)
    requires !leaf.FlowIn?
  {
    match (leaf, cell)
    case (OnceOf(_), OnceCell(slot)) =>
      var (a, slot') := Receive(slot);
      (a, OnceCell(slot'))
    case (ReuseOf(_, _), ReuseCell(slot, shared)) =>
      var (shared', r) := PollShared(shared, SlotAnswer(slot));
      (if r.Ready? then Got(r.value) else NotYet,
       ReuseCell(if shared.Init? && slot.Full? then Taken else slot, shared'))
    case (PartOf(_, _, claim), PartCell(slot, buffer)) =>
      var (buffer', d) := PollClaim(buffer, PartsAnswer(slot), claim);
      (PartAnswer(claim, d), PartCell(if buffer.None? && slot.Full? then Taken else slot, buffer'))
    case (_, _) => (Burst, cell)
  }

  /** The promise's channel is still the one its job will send to. */
  predicate Live(p: Plan, leaf: Leaf)
    requires !leaf.FlowIn? ==> leaf.job in p.jobs
  {
    match leaf
    case ReuseOf(j, gen) => gen == p.jobs[j].gen
    case PartOf(j, gen, _) => gen == p.jobs[j].gen
    case _ => true
  }

  function PollLeaf(p: Plan, store: Store, leaf: Leaf): (LeafAnswer, Store)
    requires SourceIn(p.jobs.Keys * store.cells.Keys, leaf)
  {
    if leaf.FlowIn? then
      var (a, slot) := Receive(store.flowIn);
      (a, store.(flowIn := slot))
    else if !Live(p, leaf) then (Burst, store)
    else
      var (a, cell) := PollCell(store.cells[leaf.job], leaf);
      (a, store.(cells := store.cells[leaf.job := cell]))
  }

  // ---------------------------------------------------------------------------------------------
  // Wiring without clashes
  // ---------------------------------------------------------------------------------------------

  /** Two promises that would take the same thing. */
  ghost predicate Clash(a: Leaf, b: Leaf) {
    match (a, b)
    case (OnceOf(j), OnceOf(k)) => j == k
    case (FlowIn, FlowIn) => true
    case (PartOf(j, g, c), PartOf(k, h, d)) => j == k && g == h && Share(c.Bounds(), d.Bounds())
    case (_, _) => false
  }

  /** The promises of a job, or of the flow's output. */
  function Wires(p: Plan, c: Option<JobId>): seq<Leaf>
    requires c.Some? ==> c.value in p.jobs
  {
    match c
    case Some(j) => Leaves(p.jobs[j].kind)
    case None => if p.output.Some? then [p.output.value] else []
  }

  predicate IsWire(p: Plan, c: Option<JobId>, i: nat) {
    (c.Some? ==> c.value in p.jobs) && i < |Wires(p, c)|
  }

  function Wire(p: Plan, c: Option<JobId>, i: nat): Leaf
    requires IsWire(p, c, i)
  {
    Wires(p, c)[i]
  }

  /** The output of a live promise's job is of the promise's kind. */
  predicate KindMatches(p: Plan, leaf: Leaf)
    requires !leaf.FlowIn? ==> leaf.job in p.jobs
  {
    match leaf
    case OnceOf(j) => p.jobs[j].output.OnceOut?
    case ReuseOf(j, gen) => gen == p.jobs[j].gen ==> p.jobs[j].output.ReusableOut?
    case PartOf(j, gen, _) => gen == p.jobs[j].gen ==> p.jobs[j].output.DisjointOut?
    case FlowIn => true
  }

  ghost predicate WellWired(p: Plan) {
    && SourcesAreDependencies(p.jobs)
    && Closed(DepsOf(p.jobs))
    && (p.output.Some? ==> !p.output.value.FlowIn? && p.output.value.job in p.jobs)
    && (forall c, i :: IsWire(p, c, i) ==> SourceIn(p.jobs.Keys, Wire(p, c, i)) && KindMatches(p, Wire(p, c, i)))
    && forall c, i, d, k :: IsWire(p, c, i) && IsWire(p, d, k) && (c, i) != (d, k) ==>
                           !Clash(Wire(p, c, i), Wire(p, d, k))
  }

  // ---------------------------------------------------------------------------------------------
  // One promise: it delivers, and polling others does not change that
  // ---------------------------------------------------------------------------------------------

  /** `v`, the output of the leaf's job, is there for this promise. */
  ghost predicate InPlace(p: Plan, store: Store, leaf: Leaf, v: Data)
    requires SourceIn(p.jobs.Keys * store.cells.Keys, leaf)
  {
    match leaf
    case FlowIn => store.flowIn == Full(p.input)
    case OnceOf(j) => store.cells[j] == OnceCell(Full(v))
    case ReuseOf(j, gen) => gen == p.jobs[j].gen ==>
        && store.cells[j].ReuseCell?
        && (store.cells[j].shared == Data(v) || (store.cells[j].shared == Init && store.cells[j].slot == Full(v)))
    case PartOf(j, gen, claim) => gen == p.jobs[j].gen ==>
        && store.cells[j].PartCell?
        && (store.cells[j].buffer.None? ==> store.cells[j].slot == Full(v))
        && (store.cells[j].buffer.Some? ==> store.cells[j].slot == Taken)
        && (store.cells[j].buffer.Some? ==> |store.cells[j].buffer.value| == |Items(v)|)
        && (claim.InBounds(|Items(v)|) ==> Untouched(store.cells[j].buffer, Items(v), claim))
  }

  lemma PollDeliversLeaf(p: Plan, store: Store, leaf: Leaf, v: Data)
    requires SourceIn(p.jobs.Keys * store.cells.Keys, leaf) && InPlace(p, store, leaf, v)
    ensures PollLeaf(p, store, leaf).0 ==
            match Delivers(p, leaf, v) { case Some(d) => Got(d) case None => Burst }
  {
    if leaf.PartOf? && Live(p, leaf) {
      var cell := store.cells[leaf.job];
      if leaf.claim.InBounds(|Items(v)|) {
        PollDelivers(cell.buffer, Items(v), PartsAnswer(cell.slot), leaf.claim);
      }
    }
  }

  lemma UnsharedAreApart(c: Claim, d: Claim, n: nat)
    requires !Share(c.Bounds(), d.Bounds()) && c.InBounds(n) && d.InBounds(n)
    ensures Apart(c, d, n)
  {
    forall x | Covers(c, n, x) ensures !Covers(d, n, x) {
      BoundsArePositions(c, n, x);
      if 0 <= x < n {
        BoundsArePositions(d, n, x);
      }
    }
  }

  lemma UntouchedByOther(b: Buffer<Data>, v: seq<Data>, source: Poll<seq<Data>>, c: Claim, d: Claim)
    requires !Share(c.Bounds(), d.Bounds()) && Untouched(b, v, d) && d.InBounds(|v|)
    requires source.Ready? ==> source.value == v
    ensures Untouched(PollClaim(b, source, c).0, v, d)
  {
    if c.InBounds(|v|) {
      UnsharedAreApart(c, d, |v|);
    }
    PollLeavesOthers(b, v, source, c, d);
  }

  /** Polling one promise leaves every promise it does not clash with in place. */
  lemma PollKeepsOthers(p: Plan, store: Store, leaf: Leaf, v: Data, other: Leaf, w: Data)
    requires SourceIn(p.jobs.Keys * store.cells.Keys, leaf) && InPlace(p, store, leaf, v)
    requires SourceIn(p.jobs.Keys * store.cells.Keys, other) && InPlace(p, store, other, w)
    requires !Clash(other, leaf) && (!leaf.FlowIn? && !other.FlowIn? && leaf.job == other.job ==> v == w)
    ensures InPlace(p, PollLeaf(p, store, other).1, leaf, v)
  {
    if leaf.PartOf? && other.PartOf? && leaf.job == other.job && Live(p, leaf) && Live(p, other) {
      var cell := store.cells[leaf.job];
      if leaf.claim.InBounds(|Items(v)|) {
        UntouchedByOther(cell.buffer, Items(v), PartsAnswer(cell.slot), other.claim, leaf.claim);
      }
    }
  }

  // ---------------------------------------------------------------------------------------------
  // The system
  // ---------------------------------------------------------------------------------------------

  datatype Progress =
    | Waiting
    | Queued
    | Polling(answers: seq<Poll<Data>>)
    | Completed(outcome: Outcome)
    | Collected(outcome: Outcome)

  type Progresses = map<JobId, Progress>

  datatype Sys = Sys(progress: Progresses, store: Store)

  function Initial(p: Plan): Sys {
    Sys(map j | j in p.jobs :: Waiting, Store(map j | j in p.jobs :: FreshCell(p.jobs[j].output), Full(p.input)))
  }

  datatype Event =
    | Dispatch(job: JobId)
    | Start(job: JobId)
    | PollNext(job: JobId)
    | Finish(job: JobId)
    | Collect(job: JobId)

  predicate IsCollected(pr: Progresses, j: JobId) {
    j in pr && pr[j].Collected? && pr[j].outcome.Done?
  }

  ghost predicate AllCollected(p: Plan, pr: Progresses, j: JobId)
    requires j in p.jobs
  {
    forall d :: d in p.jobs[j].deps ==> IsCollected(pr, d)
  }

  ghost predicate Shaped(p: Plan, s: Sys) {
    && s.progress.Keys == p.jobs.Keys && s.store.cells.Keys == p.jobs.Keys
    && forall j :: j in p.jobs && s.progress[j].Polling? ==> |s.progress[j].answers| <= |Leaves(p.jobs[j].kind)|
  }

  ghost predicate Enabled(p: Plan, s: Sys, e: Event) {
    && e.job in p.jobs && e.job in s.progress
    && match e
       case Dispatch(j) => s.progress[j].Waiting? && AllCollected(p, s.progress, j)
       case Start(j) => s.progress[j].Queued?
       case PollNext(j) => s.progress[j].Polling? && |s.progress[j].answers| < |Leaves(p.jobs[j].kind)|
       case Finish(j) => s.progress[j].Polling? && |s.progress[j].answers| == |Leaves(p.jobs[j].kind)|
       case Collect(j) => s.progress[j].Completed?
  }

  function Move(s: Sys, j: JobId, next: Progress): Sys {
    s.(progress := s.progress[j := next])
  }

  function Answered(answers: seq<Poll<Data>>, a: LeafAnswer): Progress {
    match a
    case Got(v) => Polling(answers + [Ready(v)])
    case NotYet => Polling(answers + [Pending])
    case Burst => Completed(Crashed)
  }

  /** The job's action has been applied to its input; the result is sent unless nobody receives it. */
  function RunAction(p: Plan, s: Sys, j: JobId, input: Option<Data>): Sys
    requires j in p.jobs && j in s.store.cells
  {
    var v := p.act(j, input);
    if p.jobs[j].dropped then Move(s, j, Completed(Failed(SendError)))
    else Move(s, j, Completed(Done(v))).(store := s.store.(cells := s.store.cells[j := Fill(s.store.cells[j], v)]))
  }

  function Checked(job: Job): Progress {
    match InputCheck(job)
    case Some(error) => Completed(Failed(error))
    case None => Polling([])
  }

  /** The promise a polling job asks next. */
  function NextLeaf(p: Plan, s: Sys, j: JobId): Leaf
    requires Enabled(p, s, PollNext(j))
  {
    Leaves(p.jobs[j].kind)[|s.progress[j].answers|]
  }

  function Do(p: Plan, s: Sys, e: Event): Sys
    requires Shaped(p, s) && Enabled(p, s, e) && WellWired(p)
  {
    var j := e.job;
    match e
    case Dispatch(_) => Move(s, j, Queued)
    case Start(_) => Move(s, j, Checked(p.jobs[j]))
    case PollNext(_) =>
      WireSource(p, Some(j), |s.progress[j].answers|);
      var (a, store) := PollLeaf(p, s.store, NextLeaf(p, s, j));
      Move(s, j, Answered(s.progress[j].answers, a)).(store := store)
    case Finish(_) =>
      (match PollInput(p.jobs[j].kind, s.progress[j].answers)
       case Pending => Move(s, j, Completed(Failed(InputNotReady)))
       case Ready(input) => RunAction(p, s, j, input))
    case Collect(_) => Move(s, j, Collected(s.progress[j].outcome))
  }

  lemma WireSource(p: Plan, c: Option<JobId>, i: nat)
    requires WellWired(p) && IsWire(p, c, i)
    ensures SourceIn(p.jobs.Keys, Wires(p, c)[i]) && KindMatches(p, Wires(p, c)[i])
  {
    assert Wire(p, c, i) == Wires(p, c)[i];
  }

  // ---------------------------------------------------------------------------------------------
  // The invariant
  // ---------------------------------------------------------------------------------------------

  /** The value a job has produced, if it has. */
  function Produced(pr: Progresses, j: JobId): Option<Data> {
    if j !in pr then None
    else match pr[j]
         case Completed(Done(v)) => Some(v)
         case Collected(Done(v)) => Some(v)
         case _ => None
  }

  /** A promise whose job has produced its output. */
  predicate Settled(p: Plan, pr: Progresses, leaf: Leaf) {
    SourceIn(p.jobs.Keys, leaf) && (leaf.FlowIn? || Produced(pr, leaf.job).Some?)
  }

  function SourceOutput(p: Plan, pr: Progresses, leaf: Leaf): Data
    requires Settled(p, pr, leaf)
  {
    if leaf.FlowIn? then p.input else Produced(pr, leaf.job).value
  }

  /** Whether the `i`-th promise of `c` has been polled; a completed job polls no more. */
  predicate Polled(pr: Progresses, c: Option<JobId>, i: nat) {
    && c.Some? && c.value in pr
    && match pr[c.value]
       case Waiting | Queued => false
       case Polling(answers) => i < |answers|
       case _ => true
  }

  ghost predicate DependenciesCollected(p: Plan, pr: Progresses) {
    forall j :: j in p.jobs && j in pr && !pr[j].Waiting? ==> AllCollected(p, pr, j)
  }

  ghost predicate OutcomesRight(p: Plan, rank: map<JobId, nat>, pr: Progresses)
    requires Evaluable(p, rank)
  {
    forall j :: j in p.jobs && j in pr && (pr[j].Completed? || pr[j].Collected?) ==> pr[j].outcome == Eval(p, rank, j)
  }

  /** One answer, right for its promise. */
  ghost predicate AnswerRight(p: Plan, pr: Progresses, leaf: Leaf, a: Poll<Data>) {
    Settled(p, pr, leaf) && a.Ready? && Delivers(p, leaf, SourceOutput(p, pr, leaf)) == Some(a.value)
  }

  /** The answers a job has got so far are the values of its promises. */
  ghost predicate JobAnswersRight(p: Plan, pr: Progresses, j: JobId, answers: seq<Poll<Data>>)
    requires j in p.jobs
  {
    && InputCheck(p.jobs[j]).None?
    && |answers| <= |Leaves(p.jobs[j].kind)|
    && forall i :: 0 <= i < |answers| ==> AnswerRight(p, pr, Leaves(p.jobs[j].kind)[i], answers[i])
  }

  ghost predicate AnswersRight(p: Plan, pr: Progresses) {
    forall j :: j in p.jobs && j in pr && pr[j].Polling? ==> JobAnswersRight(p, pr, j, pr[j].answers)
  }

  ghost predicate UnproducedCellsFresh(p: Plan, s: Sys) {
    forall j :: j in p.jobs && j in s.store.cells && Produced(s.progress, j).None? ==>
      s.store.cells[j] == FreshCell(p.jobs[j].output)
  }

  /** Not polled yet, and the output it waits for has been produced. */
  predicate Due(p: Plan, pr: Progresses, c: Option<JobId>, i: nat) {
    IsWire(p, c, i) && !Polled(pr, c, i) && Settled(p, pr, Wire(p, c, i))
  }

  ghost predicate DueWiresInPlace(p: Plan, s: Sys)
    requires s.store.cells.Keys == p.jobs.Keys
  {
    forall c, i :: Due(p, s.progress, c, i) ==>
      InPlace(p, s.store, Wire(p, c, i), SourceOutput(p, s.progress, Wire(p, c, i)))
  }

  ghost predicate ProgressInv(p: Plan, rank: map<JobId, nat>, pr: Progresses)
    requires Evaluable(p, rank)
  {
    DependenciesCollected(p, pr) && OutcomesRight(p, rank, pr) && AnswersRight(p, pr)
  }

  ghost predicate StoreInv(p: Plan, s: Sys)
    requires s.store.cells.Keys == p.jobs.Keys
  {
    UnproducedCellsFresh(p, s) && DueWiresInPlace(p, s)
  }

  ghost predicate Inv(p: Plan, rank: map<JobId, nat>, s: Sys)
    requires Evaluable(p, rank)
  {
    Shaped(p, s) && ProgressInv(p, rank, s.progress) && StoreInv(p, s)
  }

  lemma InitialInv(p: Plan, rank: map<JobId, nat>)
    requires WellWired(p) && Evaluable(p, rank)
    ensures Inv(p, rank, Initial(p))
  {
    var s := Initial(p);
    assert forall j :: j in p.jobs ==> s.progress[j].Waiting?;
    forall c, i | Due(p, s.progress, c, i)
      ensures InPlace(p, s.store, Wire(p, c, i), SourceOutput(p, s.progress, Wire(p, c, i)))
    {
      assert Wire(p, c, i).FlowIn?;
    }
  }

  // ---------------------------------------------------------------------------------------------
  // Steps that change one job's progress
  // ---------------------------------------------------------------------------------------------

  /** What has to hold of a job's own new progress. */
  ghost predicate ProgressRight(p: Plan, rank: map<JobId, nat>, pr: Progresses, j: JobId, next: Progress)
    requires Evaluable(p, rank) && j in p.jobs
  {
    && (!next.Waiting? ==> AllCollected(p, pr, j))
    && (next.Completed? || next.Collected? ==> next.outcome == Eval(p, rank, j))
    && (next.Polling? ==> JobAnswersRight(p, pr, j, next.answers))
  }

  /** New progress that takes back nothing a job has produced. */
  ghost predicate Onward(pr: Progresses, j: JobId, next: Progress) {
    && j in pr
    && (IsCollected(pr, j) ==> next == pr[j])
    && (Produced(pr, j).Some? ==> Produced(pr[j := next], j) == Produced(pr, j))
  }

  lemma OnwardKeepsAnswers(p: Plan, pr: Progresses, j: JobId, next: Progress, k: JobId, answers: seq<Poll<Data>>)
    requires Onward(pr, j, next) && k in p.jobs && JobAnswersRight(p, pr, k, answers)
    ensures JobAnswersRight(p, pr[j := next], k, answers)
  {
    forall i | 0 <= i < |answers| ensures AnswerRight(p, pr[j := next], Leaves(p.jobs[k].kind)[i], answers[i]) {
      assert AnswerRight(p, pr, Leaves(p.jobs[k].kind)[i], answers[i]);
    }
  }

  lemma OnwardKeepsCollected(p: Plan, pr: Progresses, j: JobId, next: Progress, k: JobId)
    requires Onward(pr, j, next) && k in p.jobs && AllCollected(p, pr, k)
    ensures AllCollected(p, pr[j := next], k)
  {
    forall d | d in p.jobs[k].deps ensures IsCollected(pr[j := next], d) {
      assert IsCollected(pr, d);
    }
  }

  lemma OnwardKeepsProgressInv(p: Plan, rank: map<JobId, nat>, pr: Progresses, j: JobId, next: Progress)
    requires Evaluable(p, rank) && ProgressInv(p, rank, pr) && j in p.jobs
    requires Onward(pr, j, next) && ProgressRight(p, rank, pr, j, next)
    ensures ProgressInv(p, rank, pr[j := next])
  {
    var pr' := pr[j := next];
    forall k | k in p.jobs && k in pr' && !pr'[k].Waiting? ensures AllCollected(p, pr', k) {
      OnwardKeepsCollected(p, pr, j, next, k);
    }
    forall k | k in p.jobs && k in pr' && pr'[k].Polling? ensures JobAnswersRight(p, pr', k, pr'[k].answers) {
      OnwardKeepsAnswers(p, pr, j, next, k, pr'[k].answers);
    }
  }

  /** Progress that neither produces anything nor forgets a poll. */
  ghost predicate Quiet(pr: Progresses, j: JobId, next: Progress) {
    && Onward(pr, j, next)
    && Produced(pr[j := next], j) == Produced(pr, j)
    && forall i :: Polled(pr, Some(j), i) ==> Polled(pr[j := next], Some(j), i)
  }

  lemma QuietKeepsStoreInv(p: Plan, s: Sys, j: JobId, next: Progress)
    requires s.store.cells.Keys == p.jobs.Keys && StoreInv(p, s) && Quiet(s.progress, j, next)
    ensures StoreInv(p, Move(s, j, next))
  {
    var s' := Move(s, j, next);
    forall c, i | Due(p, s'.progress, c, i)
      ensures InPlace(p, s'.store, Wire(p, c, i), SourceOutput(p, s'.progress, Wire(p, c, i)))
    {
      assert Due(p, s.progress, c, i);
    }
    forall k | k in p.jobs && k in s.store.cells && Produced(s'.progress, k).None?
      ensures s.store.cells[k] == FreshCell(p.jobs[k].output)
    {
      assert Produced(s.progress, k).None?;
    }
  }

  lemma QuietKeepsInv(p: Plan, rank: map<JobId, nat>, s: Sys, j: JobId, next: Progress)
    requires Evaluable(p, rank) && Inv(p, rank, s) && j in p.jobs
    requires ProgressRight(p, rank, s.progress, j, next) && Quiet(s.progress, j, next)
    ensures Inv(p, rank, Move(s, j, next))
  {
    OnwardKeepsProgressInv(p, rank, s.progress, j, next);
    QuietKeepsStoreInv(p, s, j, next);
  }

  // ---------------------------------------------------------------------------------------------
  // Polling
  // ---------------------------------------------------------------------------------------------

  /** The promise a polling job asks next is settled and in place. */
  lemma NextWireInPlace(p: Plan, rank: map<JobId, nat>, s: Sys, j: JobId)
    requires WellWired(p) && Evaluable(p, rank) && Inv(p, rank, s) && Enabled(p, s, PollNext(j))
    ensures var leaf := NextLeaf(p, s, j);
            && SourceIn(p.jobs[j].deps, leaf)
            && Settled(p, s.progress, leaf)
            && InPlace(p, s.store, leaf, SourceOutput(p, s.progress, leaf))
  {
    var i := |s.progress[j].answers|;
    var leaf := NextLeaf(p, s, j);
    assert SourceIn(p.jobs[j].deps, leaf);
    WireSource(p, Some(j), i);
    if !leaf.FlowIn? {
      assert AllCollected(p, s.progress, j);
      assert IsCollected(s.progress, leaf.job);
    }
    assert Due(p, s.progress, Some(j), i);
    assert Wire(p, Some(j), i) == leaf;
  }

  /** The values of the dependencies of a job that has been dispatched. */
  ghost function CollectedValues(p: Plan, pr: Progresses, j: JobId): (values: map<JobId, Data>)
    requires j in p.jobs && AllCollected(p, pr, j)
    ensures values.Keys == p.jobs[j].deps
  {
    map d | d in p.jobs[j].deps :: assert IsCollected(pr, d); pr[d].outcome.value
  }

  lemma EvalFromCollected(p: Plan, rank: map<JobId, nat>, pr: Progresses, j: JobId)
    requires Evaluable(p, rank) && OutcomesRight(p, rank, pr)
    requires j in p.jobs && AllCollected(p, pr, j)
    ensures p.jobs[j].deps <= p.jobs.Keys
    ensures Eval(p, rank, j) == JobOutcome(p, j, CollectedValues(p, pr, j))
  {
    assert DepsOf(p.jobs)[j] <= DepsOf(p.jobs).Keys;
    var values := CollectedValues(p, pr, j);
    forall d | d in values ensures d in p.jobs && Eval(p, rank, d) == Done(values[d]) {
      assert IsCollected(pr, d);
    }
    EvalFromDependencies(p, rank, j, values);
  }

  /** The recursive evaluation sees the same value for a promise as the running system. */
  lemma LeafValueIsDelivered(p: Plan, pr: Progresses, j: JobId, leaf: Leaf)
    requires j in p.jobs && p.jobs[j].deps <= p.jobs.Keys && AllCollected(p, pr, j)
    requires SourceIn(p.jobs[j].deps, leaf)
    ensures Settled(p, pr, leaf)
    ensures LeafValue(p, leaf, CollectedValues(p, pr, j)) == Delivers(p, leaf, SourceOutput(p, pr, leaf))
  {
    if !leaf.FlowIn? {
      assert IsCollected(pr, leaf.job);
    }
  }

  lemma CrashFromMissing(p: Plan, j: JobId, values: map<JobId, Data>, i: nat)
    requires j in p.jobs && p.jobs[j].deps <= p.jobs.Keys * values.Keys && SourcesAreDependencies(p.jobs)
    requires InputCheck(p.jobs[j]).None? && i < |Leaves(p.jobs[j].kind)|
    requires SourceIn(p.jobs.Keys * values.Keys, Leaves(p.jobs[j].kind)[i])
    requires LeafValue(p, Leaves(p.jobs[j].kind)[i], values) == None
    ensures JobOutcome(p, j, values) == Crashed
  {
    var job := p.jobs[j];
    assert forall k :: 0 <= k < |Leaves(job.kind)| ==> SourceIn(job.deps, Leaves(job.kind)[k]);
    assert LeafValues(p, Leaves(job.kind), values)[i] == None;
  }

  /** A promise that panics makes its job's outcome a crash. */
  lemma BurstIsCrash(p: Plan, rank: map<JobId, nat>, s: Sys, j: JobId)
    requires WellWired(p) && Evaluable(p, rank) && Inv(p, rank, s) && Enabled(p, s, PollNext(j))
    requires Settled(p, s.progress, NextLeaf(p, s, j))
    requires Delivers(p, NextLeaf(p, s, j), SourceOutput(p, s.progress, NextLeaf(p, s, j))) == None
    ensures Eval(p, rank, j) == Crashed
  {
    var i := |s.progress[j].answers|;
    assert AllCollected(p, s.progress, j) && JobAnswersRight(p, s.progress, j, s.progress[j].answers);
    NextWireInPlace(p, rank, s, j);
    EvalFromCollected(p, rank, s.progress, j);
    LeafValueIsDelivered(p, s.progress, j, NextLeaf(p, s, j));
    CrashFromMissing(p, j, CollectedValues(p, s.progress, j), i);
  }

  /** A dispatched job never finds a promise pending, and what it finds is right. */
  lemma PollNextProgress(p: Plan, rank: map<JobId, nat>, s: Sys, j: JobId)
    requires WellWired(p) && Evaluable(p, rank) && Inv(p, rank, s) && Enabled(p, s, PollNext(j))
    ensures var leaf := NextLeaf(p, s, j);
            && SourceIn(p.jobs.Keys, leaf)
            && var a := PollLeaf(p, s.store, leaf).0;
               && !a.NotYet?
               && ProgressRight(p, rank, s.progress, j, Answered(s.progress[j].answers, a))
               && Quiet(s.progress, j, Answered(s.progress[j].answers, a))
  {
    var answers, leaf := s.progress[j].answers, NextLeaf(p, s, j);
    NextWireInPlace(p, rank, s, j);
    PollDeliversLeaf(p, s.store, leaf, SourceOutput(p, s.progress, leaf));
    assert AllCollected(p, s.progress, j) && JobAnswersRight(p, s.progress, j, answers);
    match Delivers(p, leaf, SourceOutput(p, s.progress, leaf)) {
      case None => BurstIsCrash(p, rank, s, j);
      case Some(v) => GotIsRight(p, rank, s, j, v);
    }
  }

  lemma GotIsRight(p: Plan, rank: map<JobId, nat>, s: Sys, j: JobId, v: Data)
    requires WellWired(p) && Evaluable(p, rank) && Inv(p, rank, s) && Enabled(p, s, PollNext(j))
    requires Settled(p, s.progress, NextLeaf(p, s, j))
    requires Delivers(p, NextLeaf(p, s, j), SourceOutput(p, s.progress, NextLeaf(p, s, j))) == Some(v)
    ensures ProgressRight(p, rank, s.progress, j, Polling(s.progress[j].answers + [Ready(v)]))
  {
    var answers, leaf := s.progress[j].answers, NextLeaf(p, s, j);
    assert AllCollected(p, s.progress, j) && JobAnswersRight(p, s.progress, j, answers);
    assert AnswerRight(p, s.progress, leaf, Ready(v));
    MoreAnswersRight(p, s.progress, j, answers, Ready(v));
  }

  lemma MoreAnswersRight(p: Plan, pr: Progresses, j: JobId, answers: seq<Poll<Data>>, a: Poll<Data>)
    requires j in p.jobs && JobAnswersRight(p, pr, j, answers) && |answers| < |Leaves(p.jobs[j].kind)|
    requires AnswerRight(p, pr, Leaves(p.jobs[j].kind)[|answers|], a)
    ensures JobAnswersRight(p, pr, j, answers + [a])
  {
  }

  lemma PollKeepsStoreInv(p: Plan, s: Sys, j: JobId, i: nat)
    requires WellWired(p) && s.store.cells.Keys == p.jobs.Keys && StoreInv(p, s)
    requires IsWire(p, Some(j), i) && Polled(s.progress, Some(j), i) && Settled(p, s.progress, Wire(p, Some(j), i))
    requires InPlace(p, s.store, Wire(p, Some(j), i), SourceOutput(p, s.progress, Wire(p, Some(j), i)))
    ensures var s' := s.(store := PollLeaf(p, s.store, Wire(p, Some(j), i)).1);
            s'.store.cells.Keys == p.jobs.Keys && StoreInv(p, s')
  {
    var leaf := Wire(p, Some(j), i);
    var v := SourceOutput(p, s.progress, leaf);
    var s' := s.(store := PollLeaf(p, s.store, leaf).1);
    forall c, k: nat | Due(p, s'.progress, c, k)
      ensures InPlace(p, s'.store, Wire(p, c, k), SourceOutput(p, s'.progress, Wire(p, c, k)))
    {
      assert Due(p, s.progress, c, k) && (c, k) != (Some(j), i);
      assert !Clash(Wire(p, c, k), leaf);
      PollKeepsOthers(p, s.store, Wire(p, c, k), SourceOutput(p, s.progress, Wire(p, c, k)), leaf, v);
    }
  }

  lemma PollNextKeepsInv(p: Plan, rank: map<JobId, nat>, s: Sys, j: JobId)
    requires WellWired(p) && Evaluable(p, rank) && Inv(p, rank, s) && Enabled(p, s, PollNext(j))
    ensures Inv(p, rank, Do(p, s, PollNext(j)))
  {
    var i, leaf := |s.progress[j].answers|, NextLeaf(p, s, j);
    NextWireInPlace(p, rank, s, j);
    PollNextProgress(p, rank, s, j);
    var next := Answered(s.progress[j].answers, PollLeaf(p, s.store, leaf).0);
    QuietKeepsInv(p, rank, s, j, next);
    assert Wire(p, Some(j), i) == leaf;
    PollKeepsStoreInv(p, Move(s, j, next), j, i);
  }

  // ---------------------------------------------------------------------------------------------
  // Finishing
  // ---------------------------------------------------------------------------------------------

  lemma AnswersAreValues(p: Plan, pr: Progresses, j: JobId, answers: seq<Poll<Data>>)
    requires j in p.jobs && p.jobs[j].deps <= p.jobs.Keys && AllCollected(p, pr, j) && SourcesAreDependencies(p.jobs)
    requires JobAnswersRight(p, pr, j, answers) && |answers| == |Leaves(p.jobs[j].kind)|
    ensures forall i :: 0 <= i < |answers| ==> SourceIn(p.jobs[j].deps, Leaves(p.jobs[j].kind)[i])
    ensures var inputs := LeafValues(p, Leaves(p.jobs[j].kind), CollectedValues(p, pr, j));
            AllPresent(inputs) && answers == ReadyAnswers(Unwrap(inputs))
  {
    var leaves := Leaves(p.jobs[j].kind);
    forall i | 0 <= i < |answers| ensures SourceIn(p.jobs[j].deps, leaves[i]) {
    }
    var inputs := LeafValues(p, leaves, CollectedValues(p, pr, j));
    forall i | 0 <= i < |answers| ensures answers[i].Ready? && inputs[i] == Some(answers[i].value) {
      assert AnswerRight(p, pr, leaves[i], answers[i]);
      LeafValueIsDelivered(p, pr, j, leaves[i]);
    }
  }

  /** With all its answers in, a job's input is what the recursive evaluation assembles. */
  lemma FinishIsEval(p: Plan, rank: map<JobId, nat>, s: Sys, j: JobId)
    requires WellWired(p) && Evaluable(p, rank) && Inv(p, rank, s) && Enabled(p, s, Finish(j))
    ensures var r := PollInput(p.jobs[j].kind, s.progress[j].answers);
            && r.Ready?
            && Eval(p, rank, j) == if p.jobs[j].dropped then Failed(SendError) else Done(p.act(j, r.value))
  {
    var answers := s.progress[j].answers;
    assert AllCollected(p, s.progress, j) && JobAnswersRight(p, s.progress, j, answers);
    EvalFromCollected(p, rank, s.progress, j);
    AnswersAreValues(p, s.progress, j, answers);
    var inputs := LeafValues(p, Leaves(p.jobs[j].kind), CollectedValues(p, s.progress, j));
    SinglePollAssembles(p.jobs[j].kind, Unwrap(inputs));
  }

  lemma FillPutsInPlace(p: Plan, s: Sys, j: JobId, v: Data, leaf: Leaf)
    requires s.store.cells.Keys == p.jobs.Keys && j in p.jobs && SourceIn(p.jobs.Keys, leaf) && KindMatches(p, leaf)
    requires !leaf.FlowIn? && leaf.job == j && s.store.cells[j] == FreshCell(p.jobs[j].output)
    ensures InPlace(p, s.store.(cells := s.store.cells[j := Fill(s.store.cells[j], v)]), leaf, v)
  {
  }

  lemma ProduceKeepsStoreInv(p: Plan, s: Sys, j: JobId, v: Data)
    requires WellWired(p) && s.store.cells.Keys == p.jobs.Keys && StoreInv(p, s)
    requires j in p.jobs && j in s.progress && s.progress[j].Polling?
    requires forall i :: IsWire(p, Some(j), i) ==> Polled(s.progress, Some(j), i)
    ensures StoreInv(p, Move(s, j, Completed(Done(v))).(store :=
              s.store.(cells := s.store.cells[j := Fill(s.store.cells[j], v)])))
  {
    var store := s.store.(cells := s.store.cells[j := Fill(s.store.cells[j], v)]);
    var s' := Move(s, j, Completed(Done(v))).(store := store);
    forall c, i | Due(p, s'.progress, c, i)
      ensures InPlace(p, store, Wire(p, c, i), SourceOutput(p, s'.progress, Wire(p, c, i)))
    {
      var leaf := Wire(p, c, i);
      WireSource(p, c, i);
      if !leaf.FlowIn? && leaf.job == j {
        FillPutsInPlace(p, s, j, v, leaf);
      } else {
        assert Due(p, s.progress, c, i);
      }
    }
    forall k | k in p.jobs && k in store.cells && Produced(s'.progress, k).None?
      ensures store.cells[k] == FreshCell(p.jobs[k].output)
    {
      assert Produced(s.progress, k).None?;
    }
  }

  lemma ProduceKeepsProgressInv(p: Plan, rank: map<JobId, nat>, pr: Progresses, j: JobId, v: Data)
    requires Evaluable(p, rank) && ProgressInv(p, rank, pr) && j in p.jobs && j in pr && pr[j].Polling?
    requires Eval(p, rank, j) == Done(v)
    ensures ProgressInv(p, rank, pr[j := Completed(Done(v))])
  {
    assert AllCollected(p, pr, j);
    OnwardKeepsProgressInv(p, rank, pr, j, Completed(Done(v)));
  }

  lemma ProduceKeepsInv(p: Plan, rank: map<JobId, nat>, s: Sys, j: JobId, v: Data)
    requires WellWired(p) && Evaluable(p, rank) && Inv(p, rank, s) && Enabled(p, s, Finish(j))
    requires Eval(p, rank, j) == Done(v)
    ensures Inv(p, rank, Move(s, j, Completed(Done(v))).(store :=
              s.store.(cells := s.store.cells[j := Fill(s.store.cells[j], v)])))
  {
    ProduceKeepsProgressInv(p, rank, s.progress, j, v);
    AllPolled(p, s, j);
    ProduceKeepsStoreInv(p, s, j, v);
    ProduceKeepsShape(p, s, j, v);
  }

  lemma AllPolled(p: Plan, s: Sys, j: JobId)
    requires Enabled(p, s, Finish(j))
    ensures forall i :: IsWire(p, Some(j), i) ==> Polled(s.progress, Some(j), i)
  {
  }

  lemma ProduceKeepsShape(p: Plan, s: Sys, j: JobId, v: Data)
    requires Shaped(p, s) && j in p.jobs
    ensures Shaped(p, Move(s, j, Completed(Done(v))).(store :=
              s.store.(cells := s.store.cells[j := Fill(s.store.cells[j], v)])))
  {
  }

  lemma FinishKeepsInv(p: Plan, rank: map<JobId, nat>, s: Sys, j: JobId)
    requires WellWired(p) && Evaluable(p, rank) && Inv(p, rank, s) && Enabled(p, s, Finish(j))
    ensures Inv(p, rank, Do(p, s, Finish(j)))
  {
    FinishIsEval(p, rank, s, j);
    if p.jobs[j].dropped {
      assert AllCollected(p, s.progress, j);
      QuietKeepsInv(p, rank, s, j, Completed(Failed(SendError)));
    } else {
      ProduceKeepsInv(p, rank, s, j, p.act(j, PollInput(p.jobs[j].kind, s.progress[j].answers).value));
    }
  }

  // ---------------------------------------------------------------------------------------------
  // Every step
  // ---------------------------------------------------------------------------------------------

  lemma StartIsRight(p: Plan, rank: map<JobId, nat>, s: Sys, j: JobId)
    requires WellWired(p) && Evaluable(p, rank) && Inv(p, rank, s) && Enabled(p, s, Start(j))
    ensures ProgressRight(p, rank, s.progress, j, Checked(p.jobs[j]))
  {
    assert AllCollected(p, s.progress, j);
    if InputCheck(p.jobs[j]).Some? {
      EvalFromCollected(p, rank, s.progress, j);
    }
  }

  lemma StepKeepsInv(p: Plan, rank: map<JobId, nat>, s: Sys, e: Event)
    requires WellWired(p) && Evaluable(p, rank) && Inv(p, rank, s) && Enabled(p, s, e)
    ensures Inv(p, rank, Do(p, s, e))
  {
    match e {
      case Dispatch(j) => QuietKeepsInv(p, rank, s, j, Queued);
      case Start(j) =>
        StartIsRight(p, rank, s, j);
        QuietKeepsInv(p, rank, s, j, Checked(p.jobs[j]));
      case PollNext(j) => PollNextKeepsInv(p, rank, s, j);
      case Finish(j) => FinishKeepsInv(p, rank, s, j);
      case Collect(j) => QuietKeepsInv(p, rank, s, j, Collected(s.progress[j].outcome));
    }
  }

  // ---------------------------------------------------------------------------------------------
  // Whole runs: schedule independence
  // ---------------------------------------------------------------------------------------------

  ghost predicate IsStep(p: Plan, s: Sys, e: Event, s': Sys)
    requires WellWired(p)
  {
    Shaped(p, s) && Enabled(p, s, e) && s' == Do(p, s, e)
  }

  ghost predicate IsRun(p: Plan, run: seq<Sys>, events: seq<Event>)
    requires WellWired(p)
  {
    && |run| == |events| + 1 && run[0] == Initial(p)
    && forall i :: 0 <= i < |events| ==> StepAt(p, run, events, i)
  }

  ghost predicate StepAt(p: Plan, run: seq<Sys>, events: seq<Event>, i: nat)
    requires WellWired(p) && i < |events| < |run|
  {
    IsStep(p, run[i], events[i], run[i + 1])
  }

  lemma RunStepKeepsInv(p: Plan, rank: map<JobId, nat>, run: seq<Sys>, events: seq<Event>, i: nat)
    requires WellWired(p) && Evaluable(p, rank) && IsRun(p, run, events) && i < |events| && Inv(p, rank, run[i])
    ensures Inv(p, rank, run[i + 1])
  {
    assert StepAt(p, run, events, i);
    StepKeepsInv(p, rank, run[i], events[i]);
  }

  lemma {:induction false} RunKeepsInv(p: Plan, rank: map<JobId, nat>, run: seq<Sys>, events: seq<Event>, i: nat)
    requires WellWired(p) && Evaluable(p, rank) && IsRun(p, run, events) && i < |run|
    ensures Inv(p, rank, run[i])
  {
    if i == 0 {
      InitialInv(p, rank);
    } else {
      RunKeepsInv(p, rank, run, events, i - 1);
      RunStepKeepsInv(p, rank, run, events, i - 1);
    }
  }

  /** However the scheduler's and the workers' steps interleave, a job that has completed has the outcome of
      evaluating the dependency graph recursively, its dependencies had all produced their outputs before it
      was dispatched, and it never found an input that was not ready. */
  lemma ScheduleIndependence(p: Plan, rank: map<JobId, nat>, run: seq<Sys>, events: seq<Event>, i: nat, j: JobId)
    requires WellWired(p) && Evaluable(p, rank) && IsRun(p, run, events) && i < |run| && j in p.jobs
    ensures run[i].progress.Keys == p.jobs.Keys
    ensures HasOutcome(run[i].progress[j]) ==> run[i].progress[j].outcome == Eval(p, rank, j) != Failed(InputNotReady)
    ensures !run[i].progress[j].Waiting? ==>
              forall d :: d in p.jobs[j].deps ==> CollectedAsEvaluated(p, rank, run[i].progress, d)
  {
    RunKeepsInv(p, rank, run, events, i);
    var pr := run[i].progress;
    if !pr[j].Waiting? {
      assert AllCollected(p, pr, j);
      forall d | d in p.jobs[j].deps ensures CollectedAsEvaluated(p, rank, pr, d) {
        assert IsCollected(pr, d);
      }
    }
    NeverNotReady(p, rank, j);
  }

  predicate HasOutcome(progress: Progress) {
    progress.Completed? || progress.Collected?
  }

  ghost predicate CollectedAsEvaluated(p: Plan, rank: map<JobId, nat>, pr: Progresses, d: JobId)
    requires Evaluable(p, rank)
  {
    d in p.jobs && d in pr && pr[d] == Collected(Eval(p, rank, d)) && Eval(p, rank, d).Done?
  }

  lemma CombinedIsReady(p: Plan, j: JobId, outcomes: map<JobId, Outcome>)
    requires j in p.jobs && p.jobs[j].deps <= p.jobs.Keys * outcomes.Keys && SourcesAreDependencies(p.jobs)
    ensures Combine(p, j, outcomes) != Failed(InputNotReady)
  {
    var deps := p.jobs[j].deps;
    if forall d :: d in deps ==> outcomes[d].Done? {
      OutcomeIsReady(p, j, Jobs.Produced(outcomes, deps));
    }
  }

  lemma OutcomeIsReady(p: Plan, j: JobId, values: map<JobId, Data>)
    requires j in p.jobs && p.jobs[j].deps <= p.jobs.Keys * values.Keys && SourcesAreDependencies(p.jobs)
    ensures JobOutcome(p, j, values) != Failed(InputNotReady)
  {
  }

  lemma NeverNotReady(p: Plan, rank: map<JobId, nat>, j: JobId)
    requires Evaluable(p, rank) && j in p.jobs
    ensures Eval(p, rank, j) != Failed(InputNotReady)
  {
    var deps := DepsOf(p.jobs)[j];
    assert deps <= DepsOf(p.jobs).Keys;
    CombinedIsReady(p, j, map d | d in deps :: Eval(p, rank, d));
  }

  /** Once all jobs are collected, the flow's output promise delivers what its job evaluates to. */
  lemma OutputIsEval(p: Plan, rank: map<JobId, nat>, s: Sys)
    requires WellWired(p) && Evaluable(p, rank) && Inv(p, rank, s) && p.output.Some?
    requires IsCollected(s.progress, p.output.value.job)
    ensures Eval(p, rank, p.output.value.job).Done?
    ensures PollLeaf(p, s.store, p.output.value).0 ==
            match Delivers(p, p.output.value, Eval(p, rank, p.output.value.job).value) {
              case Some(v) => Got(v)
              case None => Burst
            }
  {
    var leaf := p.output.value;
    assert IsWire(p, None, 0) && Wire(p, None, 0) == leaf;
    assert Due(p, s.progress, None, 0);
    PollDeliversLeaf(p, s.store, leaf, SourceOutput(p, s.progress, leaf));
  }

  // ---------------------------------------------------------------------------------------------
  // Whole runs: termination and progress
  // ---------------------------------------------------------------------------------------------

  /** An upper bound on the steps a job still takes. */
  function Remaining(p: Plan, j: JobId, progress: Progress): int
    requires j in p.jobs
  {
    var n := |Leaves(p.jobs[j].kind)|;
    match progress
    case Waiting => n + 4
    case Queued => n + 3
    case Polling(answers) => n - |answers| + 2
    case Completed(_) => 1
    case Collected(_) => 0
  }

  function TotalRemaining(p: Plan, pr: Progresses, jobs: seq<JobId>): int {
    if jobs == [] then 0
    else
      var j := jobs[|jobs| - 1];
      TotalRemaining(p, pr, jobs[..|jobs| - 1]) + if j in p.jobs && j in pr then Remaining(p, j, pr[j]) else 0
  }

  ghost predicate Lists(jobs: seq<JobId>, all: set<JobId>) {
    && (forall j :: j in jobs <==> j in all)
    && Distinct(jobs)
  }

  lemma {:induction false} TotalAfterMove(p: Plan, pr: Progresses, jobs: seq<JobId>, j: JobId, next: Progress)
    requires Distinct(jobs)
    requires j in p.jobs && j in pr
    ensures TotalRemaining(p, pr[j := next], jobs) ==
            TotalRemaining(p, pr, jobs) + if j in jobs then Remaining(p, j, next) - Remaining(p, j, pr[j]) else 0
  {
    if jobs != [] {
      var k := |jobs| - 1;
      TotalAfterMove(p, pr, jobs[..k], j, next);
      assert j in jobs <==> j in jobs[..k] || j == jobs[k];
      assert jobs[k] !in jobs[..k];
    }
  }

  lemma StepMovesOneJob(p: Plan, s: Sys, e: Event)
    requires WellWired(p) && Shaped(p, s) && Enabled(p, s, e)
    ensures e.job in Do(p, s, e).progress
    ensures Do(p, s, e).progress == s.progress[e.job := Do(p, s, e).progress[e.job]]
    ensures Remaining(p, e.job, Do(p, s, e).progress[e.job]) < Remaining(p, e.job, s.progress[e.job])
  {
  }

  /** Every step brings the end closer. */
  lemma StepDecreases(p: Plan, s: Sys, e: Event, jobs: seq<JobId>)
    requires WellWired(p) && Shaped(p, s) && Enabled(p, s, e) && Lists(jobs, p.jobs.Keys)
    ensures TotalRemaining(p, Do(p, s, e).progress, jobs) < TotalRemaining(p, s.progress, jobs)
  {
    StepMovesOneJob(p, s, e);
    TotalAfterMove(p, s.progress, jobs, e.job, Do(p, s, e).progress[e.job]);
  }

  lemma {:induction false} TotalNonNegative(p: Plan, s: Sys, jobs: seq<JobId>)
    requires Shaped(p, s)
    ensures TotalRemaining(p, s.progress, jobs) >= 0
  {
    if jobs != [] {
      TotalNonNegative(p, s, jobs[..|jobs| - 1]);
    }
  }

  lemma RunStepDecreases(p: Plan, run: seq<Sys>, events: seq<Event>, jobs: seq<JobId>, i: nat)
    requires WellWired(p) && IsRun(p, run, events) && Lists(jobs, p.jobs.Keys) && i < |events|
    ensures TotalRemaining(p, run[i + 1].progress, jobs) < TotalRemaining(p, run[i].progress, jobs)
  {
    assert StepAt(p, run, events, i);
    StepDecreases(p, run[i], events[i], jobs);
  }

  lemma {:induction false} FallingIsShort(totals: seq<int>, n: nat)
    requires n < |totals| && forall i :: 0 <= i < |totals| - 1 ==> totals[i + 1] < totals[i]
    ensures n + totals[n] <= totals[0]
  {
    if n > 0 {
      FallingIsShort(totals, n - 1);
      assert totals[n - 1 + 1] < totals[n - 1];
    }
  }

  /** No run is longer than four steps for every job and one for every promise wired to it. */
  lemma RunsTerminate(p: Plan, rank: map<JobId, nat>, run: seq<Sys>, events: seq<Event>, jobs: seq<JobId>)
    requires WellWired(p) && Evaluable(p, rank) && IsRun(p, run, events) && Lists(jobs, p.jobs.Keys)
    ensures |events| + TotalRemaining(p, run[|events|].progress, jobs) <= TotalRemaining(p, Initial(p).progress, jobs)
    ensures |events| <= TotalRemaining(p, Initial(p).progress, jobs)
  {
    var totals := seq(|run|, i requires 0 <= i < |run| => TotalRemaining(p, run[i].progress, jobs));
    forall i | 0 <= i < |totals| - 1 ensures totals[i + 1] < totals[i] {
      RunStepDecreases(p, run, events, jobs, i);
    }
    FallingIsShort(totals, |events|);
    RunKeepsInv(p, rank, run, events, |events|);
    TotalNonNegative(p, run[|events|], jobs);
  }

  ghost predicate Stuck(p: Plan, s: Sys) {
    forall e :: !Enabled(p, s, e)
  }

  ghost predicate AllDone(pr: Progresses) {
    forall j :: j in pr ==> IsCollected(pr, j)
  }

  ghost predicate NoneFailed(pr: Progresses) {
    forall j :: j in pr && pr[j].Collected? ==> IsCollected(pr, j)
  }

  /** While a job is not collected and no collected job has failed, some step can be taken. */
  lemma NeverStuck(p: Plan, rank: map<JobId, nat>, s: Sys)
    requires WellWired(p) && Evaluable(p, rank) && Shaped(p, s) && NoneFailed(s.progress) && !AllDone(s.progress)
    ensures exists e :: Enabled(p, s, e)
  {
    var j :| j in s.progress && !IsCollected(s.progress, j);
    while s.progress[j].Waiting? && exists d :: d in p.jobs[j].deps && !IsCollected(s.progress, d)
      invariant j in p.jobs && !IsCollected(s.progress, j)
      decreases rank[j]
    {
      var d :| d in p.jobs[j].deps && !IsCollected(s.progress, d);
      assert DepsOf(p.jobs)[j] <= DepsOf(p.jobs).Keys;
      assert rank[d] < rank[j] by {
        assert d in DepsOf(p.jobs)[j] && d in DepsOf(p.jobs);
      }
      j := d;
    }
    NextEvent(p, s, j);
  }

  lemma NextEvent(p: Plan, s: Sys, j: JobId)
    requires Shaped(p, s) && j in p.jobs && !s.progress[j].Collected?
    requires s.progress[j].Waiting? ==> AllCollected(p, s.progress, j)
    ensures exists e :: Enabled(p, s, e)
  {
    match s.progress[j] {
      case Waiting => assert Enabled(p, s, Dispatch(j));
      case Queued => assert Enabled(p, s, Start(j));
      case Polling(answers) => assert Enabled(p, s, PollNext(j)) || Enabled(p, s, Finish(j));
      case Completed(_) => assert Enabled(p, s, Collect(j));
    }
  }

  /** A run that cannot be continued has collected every job with the value it evaluates to, unless it has
      collected a job that evaluates to a failure or a crash. */
  lemma MaximalRunsFinish(p: Plan, rank: map<JobId, nat>, run: seq<Sys>, events: seq<Event>)
    requires WellWired(p) && Evaluable(p, rank) && IsRun(p, run, events) && Stuck(p, run[|events|])
    ensures var pr := run[|events|].progress;
            || (forall j :: j in p.jobs ==> CollectedAsEvaluated(p, rank, pr, j))
            || (exists j :: j in p.jobs && j in pr && pr[j] == Collected(Eval(p, rank, j)) && !Eval(p, rank, j).Done?)
  {
    RunKeepsInv(p, rank, run, events, |events|);
    var last := run[|events|];
    var pr := last.progress;
    if !NoneFailed(pr) {
      var j :| j in pr && pr[j].Collected? && !IsCollected(pr, j);
      assert pr[j] == Collected(Eval(p, rank, j));
    } else {
      assert AllDone(pr) by {
        if !AllDone(pr) {
          NeverStuck(p, rank, last);
        }
      }
      forall j | j in p.jobs ensures CollectedAsEvaluated(p, rank, pr, j) {
        assert IsCollected(pr, j);
      }
    }
  }
}
