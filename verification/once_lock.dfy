/**
  The write-once cell of src/sync/once_lock.rs, as any number of threads interleaving at its atomic
  operations under sequential consistency.  Initialisers return, with a value or an error of any kind.
 */
module OnceLock {
  import opened Promises
  import opened Wrappers

  datatype CellState = Uninit | Initializing | Initialized

  datatype Outcome<T, E> = Found(value: T, mine: bool) | NotFound | InitFailed(error: E)

  /** What a thread is about to do.  `mine` records whether this call's own initialiser supplied the value. */
  datatype Pc<T, E> =
    | Idle
    | LoadForGet
    | LoadForInit
    | ReadSlot
    | CompareExchange
    | RunInit
    | WriteSlot(value: T)
    | StoreInitialized
    | StoreUninit(error: E)
    | ReadUnchecked(mine: bool)
    | Returned(outcome: Outcome<T, E>)

  /** History that no step reads: `writes` counts the writes to the slot, `holder` is the thread that won
      the last compare-exchange and has not yet stored a new state. */
  datatype Lock<T, E> = Lock(
    state: CellState, slot: Option<T>, threads: map<nat, Pc<T, E>>, writes: nat, holder: Option<nat>)

  datatype Event<T, E> = CallGet | CallInit | InitOk(value: T) | InitErr(error: E) | Advance | Return

  /** Between winning the compare-exchange and storing the new state. */
  predicate Exclusive<T, E>(pc: Pc<T, E>) {
    pc.RunInit? || pc.WriteSlot? || pc.StoreInitialized? || pc.StoreUninit?
  }

  predicate Enabled<T, E>(l: Lock<T, E>, t: nat, ev: Event<T, E>) {
    && t in l.threads
    && match ev
       case CallGet | CallInit => l.threads[t].Idle?
       case InitOk(_) | InitErr(_) => l.threads[t].RunInit?
       case Return => l.threads[t].Returned?
       case Advance => !l.threads[t].Idle? && !l.threads[t].RunInit? && !l.threads[t].Returned?
                       && (l.threads[t].ReadSlot? || l.threads[t].ReadUnchecked? ==> l.slot.Some?)
  }

  function At<T, E>(l: Lock<T, E>, t: nat, pc: Pc<T, E>): Lock<T, E> {
    l.(threads := l.threads[t := pc])
  }

  function Do<T, E>(l: Lock<T, E>, t: nat, ev: Event<T, E>): Lock<T, E>
    requires Enabled(l, t, ev)
  {
    match ev
    case CallGet => At(l, t, LoadForGet)
    case CallInit => At(l, t, LoadForInit)
    case InitOk(v) => At(l, t, WriteSlot(v))
    case InitErr(e) => At(l, t, StoreUninit(e))
    case Return => At(l, t, Idle)
    case Advance =>
      match l.threads[t]
      case LoadForGet => At(l, t, if l.state.Initialized? then ReadSlot else Returned(NotFound))
      case LoadForInit => At(l, t, if l.state.Initialized? then ReadSlot else CompareExchange)
      case ReadSlot => At(l, t, Returned(Found(l.slot.value, false)))
      case CompareExchange =>
        (match l.state
         case Uninit => At(l, t, RunInit).(state := Initializing, holder := Some(t))
         case Initializing => l
         case Initialized => At(l, t, ReadUnchecked(false)))
      case WriteSlot(v) => At(l, t, StoreInitialized).(slot := Some(v), writes := l.writes + 1)
      case StoreInitialized => At(l, t, ReadUnchecked(true)).(state := Initialized, holder := None)
      case StoreUninit(e) => At(l, t, Returned(InitFailed(e))).(state := Uninit, holder := None)
      case ReadUnchecked(mine) => At(l, t, Returned(Found(l.slot.value, mine)))
      case _ => l
  }

  datatype Action<T, E> = Action(thread: nat, event: Event<T, E>)

  ghost predicate IsRun<T, E>(run: seq<Lock<T, E>>, actions: seq<Action<T, E>>) {
    && |run| == |actions| + 1
    && run[0].state == Uninit && run[0].slot == None && run[0].writes == 0 && run[0].holder == None
    && (forall t :: t in run[0].threads ==> run[0].threads[t].Idle?)
    && forall i :: 0 <= i < |actions| ==>
         && Enabled(run[i], actions[i].thread, actions[i].event)
         && run[i + 1] == Do(run[i], actions[i].thread, actions[i].event)
  }

  ghost predicate MutualExclusion<T, E>(l: Lock<T, E>) {
    && (l.state.Initializing? <==> l.holder.Some?)
    && (l.holder.Some? ==> l.holder.value in l.threads)
    && forall t :: t in l.threads ==> (Exclusive(l.threads[t]) <==> l.holder == Some(t))
  }

  /** What thread-local progress says about the cell. */
  ghost predicate Consistent<T, E>(l: Lock<T, E>, pc: Pc<T, E>) {
    match pc
    case RunInit | WriteSlot(_) | StoreUninit(_) => l.slot.None? && l.writes == 0
    case StoreInitialized => l.slot.Some? && l.writes == 1
    case ReadSlot | ReadUnchecked(_) => l.state.Initialized?
    case Returned(Found(v, _)) => l.state.Initialized? && l.slot == Some(v)
    case _ => true
  }

  ghost predicate Inv<T, E>(l: Lock<T, E>) {
    && MutualExclusion(l)
    && (l.state.Initialized? ==> l.slot.Some? && l.writes == 1)
    && (l.state.Uninit? ==> l.slot.None? && l.writes == 0)
    && forall t :: t in l.threads ==> Consistent(l, l.threads[t])
  }

  lemma StepKeepsExclusion<T, E>(l: Lock<T, E>, t: nat, ev: Event<T, E>)
    requires Enabled(l, t, ev) && MutualExclusion(l)
    ensures MutualExclusion(Do(l, t, ev))
  {
    assert Exclusive(l.threads[t]) <==> l.holder == Some(t);
  }

  lemma StepKeepsInv<T, E>(l: Lock<T, E>, t: nat, ev: Event<T, E>)
    requires Enabled(l, t, ev) && Inv(l)
    ensures Inv(Do(l, t, ev))
    ensures l.state.Initialized? ==> Do(l, t, ev).state.Initialized? && Do(l, t, ev).slot == l.slot
  {
    StepKeepsExclusion(l, t, ev);
    var l' := Do(l, t, ev);
    assert Consistent(l, l.threads[t]) && (Exclusive(l.threads[t]) <==> l.holder == Some(t));
    forall u | u in l'.threads
      ensures Consistent(l', l'.threads[u])
    {
      assert Consistent(l, l.threads[u]) && (Exclusive(l.threads[u]) <==> l.holder == Some(u));
    }
  }

  lemma {:induction false} RunKeepsInv<T, E>(run: seq<Lock<T, E>>, actions: seq<Action<T, E>>, i: nat)
    requires IsRun(run, actions) && i < |run|
    ensures Inv(run[i])
  {
    if i > 0 {
      RunKeepsInv(run, actions, i - 1);
      StepKeepsInv(run[i - 1], actions[i - 1].thread, actions[i - 1].event);
    }
  }

  lemma {:induction false} InitializedIsNeverLeft<T, E>(run: seq<Lock<T, E>>, actions: seq<Action<T, E>>, i: nat,
                                                        j: nat)
    requires IsRun(run, actions) && i <= j < |run|
    requires run[i].state.Initialized?
    ensures run[j].state.Initialized? && run[j].slot == run[i].slot && run[i].slot.Some?
  {
    RunKeepsInv(run, actions, i);
    if i < j {
      InitializedIsNeverLeft(run, actions, i, j - 1);
      RunKeepsInv(run, actions, j - 1);
      StepKeepsInv(run[j - 1], actions[j - 1].thread, actions[j - 1].event);
    }
  }

  /** At most one initialiser runs at a time, and at most one ever writes. */
  lemma OneInitialiser<T, E>(run: seq<Lock<T, E>>, actions: seq<Action<T, E>>, i: nat, t: nat, u: nat)
    requires IsRun(run, actions) && i < |run|
    requires t in run[i].threads && u in run[i].threads
    requires Exclusive(run[i].threads[t]) && Exclusive(run[i].threads[u])
    ensures t == u && run[i].state.Initializing? && run[i].writes <= 1
  {
    RunKeepsInv(run, actions, i);
  }

  /** Every call that returns a value, in whatever thread and however much later, returns the same one. */
  lemma ReadersAgree<T, E>(run: seq<Lock<T, E>>, actions: seq<Action<T, E>>, i: nat, j: nat, t: nat, u: nat)
    requires IsRun(run, actions) && i <= j < |run|
    requires t in run[i].threads && run[i].threads[t].Returned? && run[i].threads[t].outcome.Found?
    requires u in run[j].threads && run[j].threads[u].Returned? && run[j].threads[u].outcome.Found?
    ensures run[i].threads[t].outcome.value == run[j].threads[u].outcome.value
    ensures run[i].state.Initialized? && run[j].state.Initialized?
  {
    RunKeepsInv(run, actions, i);
    RunKeepsInv(run, actions, j);
    InitializedIsNeverLeft(run, actions, i, j);
  }

  /** The slot read is never a read of an unwritten slot: whoever is about to read can. */
  lemma ReadsAreOfWrittenSlots<T, E>(run: seq<Lock<T, E>>, actions: seq<Action<T, E>>, i: nat, t: nat)
    requires IsRun(run, actions) && i < |run|
    requires t in run[i].threads
    requires run[i].threads[t].ReadSlot? || run[i].threads[t].ReadUnchecked?
    ensures run[i].state.Initialized? && run[i].slot.Some? && Enabled(run[i], t, Advance)
  {
    RunKeepsInv(run, actions, i);
  }

  /** Never lost: a cell that is being initialised has a thread that will settle it in at most three of its
      own steps, and one that is not initialised can be retried by the next compare-exchange. */
  lemma NeverLost<T, E>(run: seq<Lock<T, E>>, actions: seq<Action<T, E>>, i: nat)
    requires IsRun(run, actions) && i < |run|
    ensures run[i].state.Initializing? ==>
              exists t :: t in run[i].threads && Exclusive(run[i].threads[t])
                       && (run[i].threads[t].RunInit? || Enabled(run[i], t, Advance))
    ensures run[i].state.Uninit? ==>
              forall t :: t in run[i].threads && run[i].threads[t].CompareExchange? ==>
                Enabled(run[i], t, Advance) && Do(run[i], t, Advance).threads[t].RunInit?
  {
    RunKeepsInv(run, actions, i);
  }

  /** How often some thread's own initialiser supplied the value. */
  function Successes<T, E>(run: seq<Lock<T, E>>, actions: seq<Action<T, E>>): nat
    requires |run| == |actions| + 1
    requires forall i :: 0 <= i < |actions| ==> actions[i].thread in run[i].threads
  {
    if actions == [] then 0 else
      var n := |actions| - 1;
      Successes(run[..n + 1], actions[..n])
      + if run[n].threads[actions[n].thread].StoreInitialized? && actions[n].event.Advance? then 1 else 0
  }

  /** Over a whole run at most one initialiser succeeds, and one did exactly when the cell is initialised. */
  lemma {:induction false} AtMostOneSuccess<T, E>(run: seq<Lock<T, E>>, actions: seq<Action<T, E>>)
    requires IsRun(run, actions)
    ensures Successes(run, actions) == if run[|actions|].state.Initialized? then 1 else 0
  {
    if actions != [] {
      var n := |actions| - 1;
      AtMostOneSuccess(run[..n + 1], actions[..n]);
      RunKeepsInv(run, actions, n);
      StepKeepsInv(run[n], actions[n].thread, actions[n].event);
    }
  }

  // ---------------------------------------------------------------------------------------------
  // What a call returns
  // ---------------------------------------------------------------------------------------------

  /** Action `i` is a call by thread `t`, which is still in it, or has its outcome, at state `j`. */
  predicate InCall<T(==), E(==)>(actions: seq<Action<T, E>>, t: nat, i: nat, j: nat, call: Event<T, E>) {
    && i < j <= |actions| && actions[i] == Action(t, call) && (call.CallGet? || call.CallInit?)
    && forall k :: i < k < j && actions[k].thread == t ==> !actions[k].event.Return?
  }

  /** The thread itself has taken action `event` after the call. */
  ghost predicate Own<T, E>(actions: seq<Action<T, E>>, t: nat, i: nat, j: nat, event: Event<T, E>)
    requires j <= |actions|
  {
    exists k :: i < k < j && actions[k] == Action(t, event)
  }

  /** How many steps the thread takes from state `i` to state `j`. */
  function OwnSteps<T, E>(actions: seq<Action<T, E>>, t: nat, i: nat, j: nat): nat
    requires i <= j <= |actions|
  {
    if j == i then 0 else OwnSteps(actions, t, i, j - 1) + if actions[j - 1].thread == t then 1 else 0
  }

  ghost predicate EverUnset<T, E>(run: seq<Lock<T, E>>, i: nat, j: nat)
    requires j < |run|
  {
    exists k :: i < k <= j && !run[k].state.Initialized?
  }

  /** Where a thread can be in a call of `get`, after `steps` of its own. */
  ghost predicate GetProgress<T, E>(pc: Pc<T, E>, steps: nat, unset: bool) {
    match pc
    case LoadForGet => steps == 0
    case ReadSlot => steps == 1
    case Returned(outcome) =>
      if outcome.NotFound? then steps == 1 && unset else steps == 2 && outcome.Found? && !outcome.mine
    case _ => false
  }

  lemma {:induction false} GetCall<T, E>(run: seq<Lock<T, E>>, actions: seq<Action<T, E>>, t: nat, i: nat, j: nat)
    requires IsRun(run, actions) && InCall(actions, t, i, j, CallGet)
    ensures t in run[j].threads
    ensures GetProgress(run[j].threads[t], OwnSteps(actions, t, i + 1, j), EverUnset(run, i, j))
  {
    if j > i + 1 {
      GetCall(run, actions, t, i, j - 1);
      var a := actions[j - 1];
      assert run[j] == Do(run[j - 1], a.thread, a.event);
      assert EverUnset(run, i, j - 1) ==> EverUnset(run, i, j);
      assert !run[j - 1].state.Initialized? ==> EverUnset(run, i, j);
      GetStep(run[j - 1], a.thread, a.event, t, OwnSteps(actions, t, i + 1, j - 1), EverUnset(run, i, j - 1));
    }
  }

  lemma GetStep<T, E>(l: Lock<T, E>, u: nat, ev: Event<T, E>, t: nat, steps: nat, unset: bool)
    requires Enabled(l, u, ev) && t in l.threads && GetProgress(l.threads[t], steps, unset) && (u == t ==> !ev.Return?)
    ensures t in Do(l, u, ev).threads
    ensures GetProgress(Do(l, u, ev).threads[t], if u == t then steps + 1 else steps, unset || !l.state.Initialized?)
  {
  }

  /** About to look at the cell, in either call, or waiting for it to be settled. */
  predicate Asking<T, E>(pc: Pc<T, E>) {
    pc.LoadForGet? || pc.LoadForInit? || pc.CompareExchange?
  }

  /** Where a thread that asked an initialised cell is after `steps` of its own. */
  predicate AnswerProgress<T(==), E>(pc: Pc<T, E>, steps: nat, value: T) {
    match steps
    case 0 => Asking(pc)
    case 1 => pc.ReadSlot? || pc == ReadUnchecked(false)
    case 2 => pc.Returned? && pc.outcome.Found? && pc.outcome.value == value && !pc.outcome.mine
    case _ => false
  }

  /** A thread that asks, or waits, when the cell is initialised gets the cell's value, in two steps of its own. */
  lemma {:induction false} AskersAreAnswered<T, E>(run: seq<Lock<T, E>>, actions: seq<Action<T, E>>, t: nat, m: nat,
                                                   j: nat)
    requires IsRun(run, actions) && m <= j < |run| && run[m].state.Initialized?
    requires t in run[m].threads && Asking(run[m].threads[t])
    requires forall k :: m <= k < j && actions[k].thread == t ==> !actions[k].event.Return?
    ensures t in run[j].threads && run[m].slot.Some?
    ensures AnswerProgress(run[j].threads[t], OwnSteps(actions, t, m, j), run[m].slot.value)
  {
    InitializedIsNeverLeft(run, actions, m, j);
    if j > m {
      AskersAreAnswered(run, actions, t, m, j - 1);
      InitializedIsNeverLeft(run, actions, m, j - 1);
      var a := actions[j - 1];
      assert run[j] == Do(run[j - 1], a.thread, a.event);
    }
  }

  /** A call made when the cell is initialised returns the cell's value, after two steps of its own. */
  lemma CallFindsValue<T, E>(run: seq<Lock<T, E>>, actions: seq<Action<T, E>>, t: nat, i: nat, j: nat,
                             call: Event<T, E>)
    requires IsRun(run, actions) && InCall(actions, t, i, j, call) && run[i].state.Initialized?
    ensures t in run[j].threads && run[i].slot.Some?
    ensures OwnSteps(actions, t, i + 1, j) <= 2
    ensures run[j].threads[t].Returned? <==> OwnSteps(actions, t, i + 1, j) == 2
    ensures run[j].threads[t].Returned? ==>
              run[j].threads[t].outcome.Found? && run[j].threads[t].outcome.value == run[i].slot.value
              && !run[j].threads[t].outcome.mine
  {
    assert run[i + 1] == Do(run[i], t, call);
    InitializedIsNeverLeft(run, actions, i, i + 1);
    AskersAreAnswered(run, actions, t, i + 1, j);
  }

  /** Once any call has returned a value, every later call returns that value. */
  lemma CallFindsReturned<T, E>(run: seq<Lock<T, E>>, actions: seq<Action<T, E>>, t: nat, i: nat, j: nat,
                                call: Event<T, E>, u: nat, m: nat)
    requires IsRun(run, actions) && InCall(actions, t, i, j, call) && m <= i
    requires u in run[m].threads && run[m].threads[u].Returned? && run[m].threads[u].outcome.Found?
    ensures t in run[j].threads
    ensures run[j].threads[t].Returned? ==>
              run[j].threads[t].outcome.Found? && run[j].threads[t].outcome.value == run[m].threads[u].outcome.value
              && !run[j].threads[t].outcome.mine
  {
    RunKeepsInv(run, actions, m);
    assert Consistent(run[m], run[m].threads[u]);
    InitializedIsNeverLeft(run, actions, m, i);
    CallFindsValue(run, actions, t, i, j, call);
  }

  /** A `get` finds nothing only if the cell was not initialised at some moment of the call. */
  lemma NotFoundWasUnset<T, E>(run: seq<Lock<T, E>>, actions: seq<Action<T, E>>, t: nat, i: nat, j: nat)
    requires IsRun(run, actions) && InCall(actions, t, i, j, CallGet)
    requires t in run[j].threads && run[j].threads[t].Returned? && !run[j].threads[t].outcome.Found?
    ensures run[j].threads[t].outcome == NotFound && exists k :: i < k <= j && !run[k].state.Initialized?
  {
    GetCall(run, actions, t, i, j);
  }

  /** Where a thread can be in a call of `get_or_try_init`, and what its initialiser has done by then. */
  ghost predicate InitProgress<T, E>(l: Lock<T, E>, pc: Pc<T, E>, actions: seq<Action<T, E>>, t: nat, i: nat, j: nat)
    requires j <= |actions|
  {
    match pc
    case LoadForInit => NothingOwn(actions, t, i, j)
    case ReadSlot => NothingOwn(actions, t, i, j)
    case CompareExchange => NothingOwn(actions, t, i, j)
    case RunInit => NothingOwn(actions, t, i, j)
    case WriteSlot(v) => Own(actions, t, i, j, InitOk(v))
    case StoreInitialized => l.slot.Some? && Own(actions, t, i, j, InitOk(l.slot.value))
    case StoreUninit(e) => Own(actions, t, i, j, InitErr(e))
    case ReadUnchecked(mine) => l.slot.Some? && OwnOrNot(actions, t, i, j, l.slot.value, mine)
    case Returned(outcome) =>
      (match outcome
       case Found(v, mine) => OwnOrNot(actions, t, i, j, v, mine)
       case InitFailed(e) => Own(actions, t, i, j, InitErr(e))
       case NotFound => false)
    case _ => false
  }

  /** The thread's initialiser has not returned during the call. */
  predicate NothingOwn<T, E>(actions: seq<Action<T, E>>, t: nat, i: nat, j: nat)
    requires j <= |actions|
  {
    forall k :: i < k < j && actions[k].thread == t ==> !actions[k].event.InitOk? && !actions[k].event.InitErr?
  }

  ghost predicate OwnOrNot<T, E>(actions: seq<Action<T, E>>, t: nat, i: nat, j: nat, v: T, mine: bool)
    requires j <= |actions|
  {
    if mine then Own(actions, t, i, j, InitOk(v)) else NothingOwn(actions, t, i, j)
  }

  lemma OwnStays<T, E>(actions: seq<Action<T, E>>, t: nat, i: nat, j: nat, event: Event<T, E>)
    requires 0 < j <= |actions|
    ensures Own(actions, t, i, j, event) <==>
              Own(actions, t, i, j - 1, event) || (i < j - 1 && actions[j - 1] == Action(t, event))
  {
  }

  /** One step keeps a thread's progress, whoever takes it. */
  lemma InitStep<T, E>(l: Lock<T, E>, actions: seq<Action<T, E>>, t: nat, i: nat, j: nat)
    requires i < j < |actions| && Enabled(l, actions[j].thread, actions[j].event) && Inv(l) && t in l.threads
    requires InitProgress(l, l.threads[t], actions, t, i, j)
    requires actions[j].thread == t ==> !actions[j].event.Return?
    ensures var l' := Do(l, actions[j].thread, actions[j].event);
            t in l'.threads && InitProgress(l', l'.threads[t], actions, t, i, j + 1)
  {
    var a := actions[j];
    var l' := Do(l, a.thread, a.event);
    assert Consistent(l, l.threads[t]);
    assert Exclusive(l.threads[a.thread]) <==> l.holder == Some(a.thread);
    assert Exclusive(l.threads[t]) <==> l.holder == Some(t);
    forall event: Event<T, E> | Own(actions, t, i, j, event) ensures Own(actions, t, i, j + 1, event) {
      OwnStays(actions, t, i, j + 1, event);
    }
    if a.thread == t {
      assert actions[j] == Action(t, a.event);
      assert Own(actions, t, i, j + 1, a.event);
    } else {
      assert NothingOwn(actions, t, i, j) ==> NothingOwn(actions, t, i, j + 1);
    }
  }

  lemma {:induction false} InitCall<T, E>(run: seq<Lock<T, E>>, actions: seq<Action<T, E>>, t: nat, i: nat, j: nat)
    requires IsRun(run, actions) && InCall(actions, t, i, j, CallInit)
    ensures t in run[j].threads && InitProgress(run[j], run[j].threads[t], actions, t, i, j)
  {
    if j > i + 1 {
      InitCall(run, actions, t, i, j - 1);
      RunKeepsInv(run, actions, j - 1);
      InitStep(run[j - 1], actions, t, i, j - 1);
    }
  }

  /** A `get_or_try_init` always returns a value or an error of its own initialiser; the value is its own
      initialiser's if it says so, and otherwise its initialiser has not returned. */
  lemma InitOutcome<T, E>(run: seq<Lock<T, E>>, actions: seq<Action<T, E>>, t: nat, i: nat, j: nat)
    requires IsRun(run, actions) && InCall(actions, t, i, j, CallInit)
    requires t in run[j].threads && run[j].threads[t].Returned?
    ensures match run[j].threads[t].outcome
            case Found(v, true) => exists k :: i < k < j && actions[k] == Action(t, InitOk(v))
            case Found(_, false) => forall k :: i < k < j && actions[k].thread == t ==>
                                      !actions[k].event.InitOk? && !actions[k].event.InitErr?
            case InitFailed(e) => exists k :: i < k < j && actions[k] == Action(t, InitErr(e))
            case NotFound => false
  {
    InitCall(run, actions, t, i, j);
  }
}
