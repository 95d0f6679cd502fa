/**
  One run of a job, after `BackendJob` in src/backend/job.rs: the input travels to the action and the output
  back through channels of capacity 1, all of them used by the one thread that runs the job.
 */
module JobRun {
  import opened Promises
  import opened Jobs
  import opened Wrappers

  // ---------------------------------------------------------------------------------------------
  // The chain of actions
  // ---------------------------------------------------------------------------------------------

  /** The channel `ReceiveInput` reads, the one `run` reads, and the one the stage added by a funnel reads. */
  datatype Channel = ToAction | FromAction | ToFunnel

  datatype Channels = Channels(toAction: Option<Data>, fromAction: Option<Data>, toFunnel: Option<Data>) {
    function Holds(c: Channel): Option<Data> {
      match c
      case ToAction => toAction
      case FromAction => fromAction
      case ToFunnel => toFunnel
    }

    function With(c: Channel, d: Option<Data>): Channels {
      match c
      case ToAction => this.(toAction := d)
      case FromAction => this.(fromAction := d)
      case ToFunnel => this.(toFunnel := d)
    }
  }

  const EMPTY := Channels(None, None, None)

  datatype Stage =
    | ReceiveInput(channel: Channel)
    | ReceiveFunnel(receiver: Channel, sender: Channel)
    | UserAction
    | SendOutput(channel: Channel)

  /** `passing`: what one stage hands to the next. */
  datatype Machine = Machine(channels: Channels, passing: Option<Data>) {

    /** Sending to a full channel blocks for ever: nobody else will empty it. */
    function Send(c: Channel, d: Data): Option<Machine> {
      if channels.Holds(c).None? then Some(this.(channels := channels.With(c, Some(d)))) else None
    }

    /** So does receiving from an empty one. */
    function Receive(c: Channel): Option<Machine> {
      if channels.Holds(c).Some? then Some(Machine(channels.With(c, None), channels.Holds(c))) else None
    }
  }

  function RunStage(m: Machine, stage: Stage, act: Option<Data> -> Data): Option<Machine> {
    match stage
    case ReceiveInput(c) => m.Receive(c)
    case ReceiveFunnel(r, s) =>
      (match m.Receive(r)
       case None => None
       case Some(m') => if m'.passing.None? then None else m'.Send(s, List(Items(m'.passing.value))))
    case UserAction => Some(m.(passing := Some(act(m.passing))))
    case SendOutput(c) => if m.passing.None? then None else m.Send(c, m.passing.value)
  }

  function RunStages(m: Machine, stages: seq<Stage>, act: Option<Data> -> Data): Option<Machine>
    decreases |stages|
  {
    if stages == [] then Some(m)
    else match RunStage(m, stages[0], act)
         case None => None
         case Some(m') => RunStages(m', stages[1..], act)
  }

  function PlainStages(): seq<Stage> {
    [ReceiveInput(ToAction), UserAction, SendOutput(FromAction)]
  }

  function StagesOf(flavor: InputFlavor): seq<Stage> {
    match flavor
    case FlavorNone => [UserAction, SendOutput(FromAction)]
    case FlavorSingle => PlainStages()
    case FlavorFunnel => [ReceiveFunnel(ToFunnel, ToAction)] + PlainStages()
  }

  function SenderOf(flavor: InputFlavor): Channel {
    if flavor.FlavorFunnel? then ToFunnel else ToAction
  }

  lemma Unfold(m: Machine, first: Stage, rest: seq<Stage>, act: Option<Data> -> Data)
    ensures RunStages(m, [first] + rest, act) ==
            match RunStage(m, first, act) { case None => None case Some(m') => RunStages(m', rest, act) }
  {
    assert ([first] + rest)[1..] == rest;
  }

  /** The action and the sending of its output. */
  lemma ActAndSend(passing: Option<Data>, act: Option<Data> -> Data)
    ensures RunStages(Machine(EMPTY, passing), [UserAction, SendOutput(FromAction)], act)
         == Some(Machine(Channels(None, Some(act(passing)), None), Some(act(passing))))
  {
    Unfold(Machine(EMPTY, passing), UserAction, [SendOutput(FromAction)], act);
    Unfold(Machine(EMPTY, Some(act(passing))), SendOutput(FromAction), [], act);
  }

  lemma PlainDelivers(d: Data, passing: Option<Data>, act: Option<Data> -> Data)
    ensures RunStages(Machine(Channels(Some(d), None, None), passing), PlainStages(), act)
         == Some(Machine(Channels(None, Some(act(Some(d))), None), Some(act(Some(d)))))
  {
    Unfold(Machine(Channels(Some(d), None, None), passing), ReceiveInput(ToAction),
           [UserAction, SendOutput(FromAction)], act);
    ActAndSend(Some(d), act);
  }

  function Loaded(flavor: InputFlavor, input: Option<Data>): Channels {
    EMPTY.With(SenderOf(flavor), input)
  }

  /** Run with its input sent, the chain never blocks, applies the action once to that input, and leaves nothing
      in the channels but the output. */
  lemma ChainDelivers(flavor: InputFlavor, input: Option<Data>, act: Option<Data> -> Data)
    requires flavor.FlavorNone? <==> input.None?
    requires flavor.FlavorFunnel? ==> input.value.List?
    ensures var m := RunStages(Machine(Loaded(flavor, input), None), StagesOf(flavor), act);
            m.Some? && m.value.channels == Channels(None, Some(act(input)), None)
  {
    match flavor {
      case FlavorNone => ActAndSend(None, act);
      case FlavorSingle => PlainDelivers(input.value, None, act);
      case FlavorFunnel =>
        Unfold(Machine(Channels(None, None, input), None), ReceiveFunnel(ToFunnel, ToAction), PlainStages(), act);
        PlainDelivers(input.value, input, act);
    }
  }

  // ---------------------------------------------------------------------------------------------
  // The job
  // ---------------------------------------------------------------------------------------------

  datatype RunResult = Output(value: Data) | RunError(error: JobError) | Blocks

  class BackendJob {
    const act: Option<Data> -> Data
    var flavor: InputFlavor
    var kind: InputKind
    var channels: Channels
    var inputSender: Channel
    var stages: seq<Stage>

    ghost predicate Valid()
      reads this
    {
      && channels == EMPTY && stages == StagesOf(flavor)
      && (!flavor.FlavorNone? ==> inputSender == SenderOf(flavor))
      && (flavor.FlavorSingle? ==> !kind.Funnel?) && (flavor.FlavorFunnel? && !kind.NoInput? ==> kind.Funnel?)
    }

    constructor (takesInput: bool, act: Option<Data> -> Data)
      ensures Valid() && kind == NoInput && this.act == act
      ensures flavor == if takesInput then FlavorSingle else FlavorNone
    {
      this.act := act;
      flavor := if takesInput then FlavorSingle else FlavorNone;
      kind, channels, inputSender := NoInput, EMPTY, ToAction;
      stages := if takesInput then PlainStages() else [UserAction, SendOutput(FromAction)];
    }

    /** Runs the job, its promises answering `answers` to their one poll.  The run never blocks on a channel;
        it yields the action's value for the input the wiring describes, and it leaves the channels empty. */
    method Run(answers: seq<Poll<Data>>) returns (r: RunResult)
      requires Valid() && |answers| == |Leaves(kind)|
      modifies this
      ensures !r.Blocks?
      ensures InputCheck(Job(flavor, old(kind), {}, ReusableOut, 0, false)).Some? ==>
                r == RunError(InputCheck(Job(flavor, old(kind), {}, ReusableOut, 0, false)).value)
      ensures InputCheck(Job(flavor, old(kind), {}, ReusableOut, 0, false)).None? ==>
                r == match PollInput(old(kind), answers)
                     case Pending => RunError(InputNotReady)
                     case Ready(input) => Output(act(input))
      ensures r == RunError(NoInputSet) <==> !flavor.FlavorNone? && old(kind).NoInput?
      ensures r == RunError(UnexpectedInput) <==> flavor.FlavorNone? && !old(kind).NoInput?
      ensures r.Output? || r.RunError?
      ensures flavor == old(flavor) && Valid()
      ensures !flavor.FlavorNone? ==> kind == NoInput
    {
      var input: Option<Data> := None;
      if !flavor.FlavorNone? {
        var taken := kind;
        kind := NoInput;
        if taken.NoInput? {
          return RunError(NoInputSet);
        }
        match PollInput(taken, answers) {
          case Pending => return RunError(InputNotReady);
          case Ready(data) => input := data;
        }
        // Sending finds the channel empty.
        assert channels.Holds(inputSender).None?;
        channels := channels.With(inputSender, input);
      } else if !kind.NoInput? {
        return RunError(UnexpectedInput);
      }
      ChainDelivers(flavor, input, act);
      assert channels == Loaded(flavor, input);
      var ran := RunAction();
      if !ran || channels.fromAction.None? {
        return Blocks;
      }
      r := Output(channels.fromAction.value);
      channels := channels.With(FromAction, None);
    }

    method RunAction() returns (ran: bool)
      modifies `channels
      ensures var m := RunStages(Machine(old(channels), None), stages, act);
              ran == m.Some? && (ran ==> channels == m.value.channels)
    {
      var m := Machine(channels, None);
      var i := 0;
      assert stages[0..] == stages;
      while i < |stages|
        invariant 0 <= i <= |stages|
        invariant RunStages(m, stages[i..], act) == RunStages(Machine(old(channels), None), stages, act)
      {
        assert stages[i..][0] == stages[i] && stages[i..][1..] == stages[i + 1..];
        var next := RunStage(m, stages[i], act);
        if next.None? {
          return false;
        }
        m := next.value;
        i := i + 1;
      }
      channels := m.channels;
      return true;
    }

    /** Turns a single input into a funnel.  A collection wired before stays, element by element; a new first
        stage receives the funnel's elements and passes them on through the old input channel. */
    method MakeFunnel() returns (error: Option<JobError>)
      requires Valid()
      modifies this
      ensures Valid()
      ensures error.Some? <==> !old(flavor).FlavorSingle?
      ensures error.Some? ==> error == Some(UnexpectedInput) && flavor == old(flavor) && kind == old(kind)
      ensures error.None? ==> flavor == FlavorFunnel
      ensures error.None? ==> kind == Funnel(if old(kind).Single? then [Spread(old(kind).source)] else [])
    {
      if !flavor.FlavorSingle? {
        return Some(UnexpectedInput);
      }
      flavor := FlavorFunnel;
      var entries := if kind.Single? then [Spread(kind.source)] else [];
      var oldSender := inputSender;
      inputSender := ToFunnel;
      stages := [ReceiveFunnel(ToFunnel, oldSender)] + stages;
      kind := Funnel(entries);
      return None;
    }
  }

  // ---------------------------------------------------------------------------------------------
  // A collection turned into a funnel
  // ---------------------------------------------------------------------------------------------

  lemma LastLeaves(entries: seq<Entry>, last: Entry)
    ensures EntryLeaves(entries + [last]) == EntryLeaves(entries) + SourceLeaves(last.source)
  {
    assert (entries + [last])[..|entries|] == entries;
  }

  lemma {:induction false} EntriesAfter(first: Entry, later: seq<Entry>)
    ensures EntryLeaves([first] + later) == SourceLeaves(first.source) + EntryLeaves(later)
  {
    if later == [] {
      LastLeaves([], first);
      assert [] + [first] == [first] + later;
    } else {
      var rest, last := later[..|later| - 1], later[|later| - 1];
      Split(later, |later| - 1);
      EntriesAfter(first, rest);
      LastLeaves(rest, last);
      LastLeaves([first] + rest, last);
      Associative([first], rest, [last]);
      Associative(SourceLeaves(first.source), EntryLeaves(rest), SourceLeaves(last.source));
    }
  }

  /** The last entry of a funnel and those before it. */
  lemma LastEntry(entries: seq<Entry>, last: Entry, vs: seq<Data>, v: seq<Data>)
    requires |vs| == |EntryLeaves(entries)| && |v| == |SourceLeaves(last.source)|
    ensures |vs + v| == |EntryLeaves(entries + [last])|
    ensures FunnelValues(entries + [last], vs + v) ==
            FunnelValues(entries, vs) + EntryValues(last, SourceValue(last.source, v))
  {
    var all := entries + [last];
    assert all[..|entries|] == entries && all[|entries|] == last;
    assert (vs + v)[..|vs|] == vs && (vs + v)[|vs|..] == v;
  }

  lemma {:induction false} ValuesAfter(first: Entry, later: seq<Entry>, v: seq<Data>, vs: seq<Data>)
    requires |v| == |SourceLeaves(first.source)| && |vs| == |EntryLeaves(later)|
    ensures |v + vs| == |EntryLeaves([first] + later)|
    ensures FunnelValues([first] + later, v + vs) ==
            EntryValues(first, SourceValue(first.source, v)) + FunnelValues(later, vs)
    decreases |later|, 1
  {
    EntriesAfter(first, later);
    if later == [] {
      LastEntry([], first, [], v);
      assert [] + [first] == [first] + later && [] + v == v + vs;
    } else {
      var k := |later| - 1;
      var n := |EntryLeaves(later[..k])|;
      Split(later, k);
      Cut(vs, n);
      AppendedValue(first, later[..k], later[k], v, vs[..n], vs[n..]);
    }
  }

  lemma {:induction false} AppendedValue(first: Entry, later: seq<Entry>, last: Entry, v: seq<Data>, vs: seq<Data>,
                                         u: seq<Data>)
    requires |v| == |SourceLeaves(first.source)| && |vs| == |EntryLeaves(later)| && |u| == |SourceLeaves(last.source)|
    ensures |vs + u| == |EntryLeaves(later + [last])| && |v + (vs + u)| == |EntryLeaves([first] + (later + [last]))|
    ensures FunnelValues([first] + (later + [last]), v + (vs + u)) ==
            EntryValues(first, SourceValue(first.source, v)) + FunnelValues(later + [last], vs + u)
    decreases |later| + 1, 0
  {
    ValuesAfter(first, later, v, vs);
    LastEntry(later, last, vs, u);
    LastEntry([first] + later, last, v + vs, u);
    Associative([first], later, [last]);
    Associative(v, vs, u);
    Associative(EntryValues(first, SourceValue(first.source, v)), FunnelValues(later, vs),
                EntryValues(last, SourceValue(last.source, u)));
  }

  lemma Split<T>(s: seq<T>, k: nat)
    requires |s| == k + 1
    ensures s[..k] + [s[k]] == s
  {
  }

  lemma Cut<T>(s: seq<T>, n: nat)
    requires n <= |s|
    ensures s[..n] + s[n..] == s
  {
  }

  lemma Associative<T>(a: seq<T>, b: seq<T>, c: seq<T>)
    ensures (a + b) + c == a + (b + c)
  {
  }

  /** A job whose collection was wired before it became a funnel receives the elements of that collection,
      followed by what is funnelled in later, in order. */
  lemma CollectionThenFunnel(s: Source, later: seq<Entry>, v: seq<Data>, vs: seq<Data>)
    requires |v| == |SourceLeaves(s)| && |vs| == |EntryLeaves(later)|
    ensures |v + vs| == |Leaves(Funnel([Spread(s)] + later))|
    ensures Assemble(Funnel([Spread(s)] + later), v + vs) ==
            Some(List(Items(SourceValue(s, v)) + FunnelValues(later, vs)))
  {
    ValuesAfter(Spread(s), later, v, vs);
  }
}
