/**
  Promises and promise sets, after src/sync/promise.rs and src/backend/reusable.rs.

  A promise is known to a set only through its handle; what each `poll()` of it answers is decided by
  the rest of the program, so it arrives as a parameter: one answer for every promise held, in the
  order in which the set polls them.
 */
module Promises {
  import opened Wrappers

  datatype Poll<+T> = Ready(value: T) | Pending

  /** The values of the promises that answered, in polling order. */
  function Values<T>(answers: seq<Poll<T>>): seq<T> {
    if answers == [] then []
    else (if answers[0].Ready? then [answers[0].value] else []) + Values(answers[1..])
  }

  /** The promises that answered, and those that did not, in polling order. */
  function Resolved<P, T>(promises: seq<P>, answers: seq<Poll<T>>): seq<P>
    requires |promises| == |answers|
  {
    if answers == [] then []
    else (if answers[0].Ready? then [promises[0]] else []) + Resolved(promises[1..], answers[1..])
  }

  function Unresolved<P, T>(promises: seq<P>, answers: seq<Poll<T>>): seq<P>
    requires |promises| == |answers|
  {
    if answers == [] then []
    else (if answers[0].Ready? then [] else [promises[0]]) + Unresolved(promises[1..], answers[1..])
  }

  /** `Vec::swap_remove(0)`: the last element takes the place of the first. */
  function SwapRemoveFirst<T>(s: seq<T>): seq<T>
    requires s != []
  {
    if |s| == 1 then [] else [s[|s| - 1]] + s[1..|s| - 1]
  }

  datatype SetState<P, T> = SetState(promises: seq<P>, finished: seq<T>) {

    function Insert(p: P): SetState<P, T> {
      this.(promises := promises + [p])
    }

    function Absorb(answers: seq<Poll<T>>): SetState<P, T>
      requires |answers| == |promises|
    {
      SetState(Unresolved(promises, answers), finished + Values(answers))
    }

    function PollAny(answers: seq<Poll<T>>): (SetState<P, T>, Option<Poll<T>>)
      requires |answers| == |promises|
    {
      var s := Absorb(answers);
      if s.finished == [] && s.promises == [] then (s, None)
      else if s.finished != [] then
        (s.(finished := SwapRemoveFirst(s.finished)), Some(Ready(s.finished[0])))
      else (s, Some(Pending))
    }

    function PollAll(answers: seq<Poll<T>>): (SetState<P, T>, Poll<seq<T>>)
      requires |answers| == |promises|
    {
      var s := Absorb(answers);
      if s.promises == [] then (s.(finished := []), Ready(s.finished)) else (s, Pending)
    }
  }

  lemma UnrollAt<P, T>(promises: seq<P>, answers: seq<Poll<T>>, i: nat)
    requires i < |promises| == |answers|
    ensures Values(answers[i..]) == (if answers[i].Ready? then [answers[i].value] else []) + Values(answers[i + 1..])
    ensures Unresolved(promises[i..], answers[i..])
         == (if answers[i].Ready? then [] else [promises[i]]) + Unresolved(promises[i + 1..], answers[i + 1..])
  {
    assert answers[i..][1..] == answers[i + 1..] && promises[i..][1..] == promises[i + 1..];
  }

  // ---------------------------------------------------------------------------------------------
  // One pass over the promises
  // ---------------------------------------------------------------------------------------------

  /** How many of the first `i` promises answered. */
  function ReadyBefore<T>(answers: seq<Poll<T>>, i: nat): (n: nat)
    requires i <= |answers|
    ensures n <= i
  {
    if i == 0 then 0 else ReadyBefore(answers, i - 1) + if answers[i - 1].Ready? then 1 else 0
  }

  /** Every promise has been asked once: the values of those that answered follow the finished ones, in the order of
      the promises, and the others stay, in their order. */
  ghost predicate Drained<P, T>(before: SetState<P, T>, answers: seq<Poll<T>>, after: SetState<P, T>) {
    && |answers| == |before.promises|
    && before.finished <= after.finished
    && |after.finished| == |before.finished| + ReadyBefore(answers, |answers|)
    && |after.promises| == |answers| - ReadyBefore(answers, |answers|)
    && forall i :: 0 <= i < |answers| ==> PlacedRight(before, answers, after, i)
  }

  ghost predicate PlacedRight<P, T>(before: SetState<P, T>, answers: seq<Poll<T>>, after: SetState<P, T>, i: nat)
    requires i < |answers| == |before.promises|
  {
    var ready := ReadyBefore(answers, i);
    match answers[i]
    case Ready(v) =>
      |before.finished| + ready < |after.finished| && after.finished[|before.finished| + ready] == v
    case Pending => i - ready < |after.promises| && after.promises[i - ready] == before.promises[i]
  }

  lemma {:induction false} ReadyAfterFirst<T>(answers: seq<Poll<T>>, i: nat)
    requires 0 < i <= |answers|
    ensures ReadyBefore(answers, i) == ReadyBefore(answers[1..], i - 1) + if answers[0].Ready? then 1 else 0
  {
    if i > 1 {
      ReadyAfterFirst(answers, i - 1);
    }
  }

  lemma {:induction false} ResolvedInPlace<P, T>(promises: seq<P>, answers: seq<Poll<T>>, i: nat)
    requires i < |promises| == |answers|
    ensures var ready := ReadyBefore(answers, i);
            match answers[i]
            case Ready(v) => ready < |Values(answers)| && Values(answers)[ready] == v
            case Pending =>
              i - ready < |Unresolved(promises, answers)| && Unresolved(promises, answers)[i - ready] == promises[i]
  {
    if i > 0 {
      ReadyAfterFirst(answers, i);
      ResolvedInPlace(promises[1..], answers[1..], i - 1);
    }
  }

  lemma {:induction false} ResolvedCounts<P, T>(promises: seq<P>, answers: seq<Poll<T>>)
    requires |promises| == |answers|
    ensures |Values(answers)| == ReadyBefore(answers, |answers|)
    ensures |Unresolved(promises, answers)| == |answers| - ReadyBefore(answers, |answers|)
  {
    if answers != [] {
      ReadyAfterFirst(answers, |answers|);
      ResolvedCounts(promises[1..], answers[1..]);
    }
  }

  lemma AbsorbDrains<P, T>(s: SetState<P, T>, answers: seq<Poll<T>>)
    requires |answers| == |s.promises|
    ensures Drained(s, answers, s.Absorb(answers))
  {
    ResolvedCounts(s.promises, answers);
    forall i | 0 <= i < |answers| ensures PlacedRight(s, answers, s.Absorb(answers), i) {
      ResolvedInPlace(s.promises, answers, i);
    }
  }

  /** The first element is gone, and the last has taken its place. */
  predicate SwapRemoved<T(==)>(before: seq<T>, after: seq<T>) {
    && |before| == |after| + 1
    && forall i :: 0 <= i < |after| ==> after[i] == before[if i == 0 then |after| else i]
  }

  /** `poll_any`, once all promises have been asked, returns the first finished value, none if there are no promises
      either, and otherwise that nothing is ready. */
  predicate AnyPolled<P(==), T(==)>(drained: SetState<P, T>, after: SetState<P, T>, r: Option<Poll<T>>) {
    && after.promises == drained.promises
    && if drained.finished != [] then
         r == Some(Ready(drained.finished[0])) && SwapRemoved(drained.finished, after.finished)
       else
         after.finished == [] && r == if drained.promises == [] then None else Some(Pending)
  }

  /** `poll`, once all promises have been asked, returns all finished values if no promise is left, and empties the
      set. */
  predicate AllPolled<P(==), T(==)>(drained: SetState<P, T>, after: SetState<P, T>, r: Poll<seq<T>>) {
    && after.promises == drained.promises
    && (r.Ready? <==> drained.promises == [])
    && if r.Ready? then r.value == drained.finished && after.finished == [] else after.finished == drained.finished
  }

  lemma PollsExactly<P, T>(s: SetState<P, T>, answers: seq<Poll<T>>)
    requires |answers| == |s.promises|
    ensures Drained(s, answers, s.Absorb(answers))
    ensures AnyPolled(s.Absorb(answers), s.PollAny(answers).0, s.PollAny(answers).1)
    ensures AllPolled(s.Absorb(answers), s.PollAll(answers).0, s.PollAll(answers).1)
  {
    AbsorbDrains(s, answers);
  }

  class PromiseSet<P, T> {
    var finished: seq<T>
    var promises: seq<P>

    function State(): SetState<P, T>
      reads this
    {
      SetState(promises, finished)
    }

    constructor ()
      ensures State() == SetState([], [])
    {
      promises, finished := [], [];
    }

    method Insert(p: P)
      modifies this
      ensures State() == old(State()).Insert(p)
      ensures promises == old(promises) + [p] && finished == old(finished)
    {
      promises := promises + [p];
    }

    /** The loop shared by both polls: every promise is asked once, in order. */
    method Drain(answers: seq<Poll<T>>)
      requires |answers| == |promises|
      modifies this
      ensures State() == old(State()).Absorb(answers)
      ensures Drained(old(State()), answers, State())
    {
      ghost var asked := promises;
      var notDone := [];
      var i := 0;
      assert asked[0..] == asked && answers[0..] == answers;
      while i < |promises|
        invariant 0 <= i <= |promises| == |answers| && promises == asked
        invariant notDone + Unresolved(asked[i..], answers[i..]) == Unresolved(asked, answers)
        invariant finished + Values(answers[i..]) == old(finished) + Values(answers)
      {
        UnrollAt(asked, answers, i);
        match answers[i] {
          case Ready(value) => finished := finished + [value];
          case Pending => notDone := notDone + [promises[i]];
        }
        i := i + 1;
      }
      promises := notDone;
      AbsorbDrains(old(State()), answers);
    }

    method PollAny(answers: seq<Poll<T>>) returns (r: Option<Poll<T>>)
      requires |answers| == |promises|
      modifies this
      ensures (State(), r) == old(State()).PollAny(answers)
      ensures var drained := old(State()).Absorb(answers);
              Drained(old(State()), answers, drained) && AnyPolled(drained, State(), r)
    {
      PollsExactly(State(), answers);
      Drain(answers);
      if finished == [] && promises == [] {
        return None;
      } else if finished != [] {
        var first := finished[0];
        finished := SwapRemoveFirst(finished);
        return Some(Ready(first));
      } else {
        return Some(Pending);
      }
    }

    method PollAll(answers: seq<Poll<T>>) returns (r: Poll<seq<T>>)
      requires |answers| == |promises|
      modifies this
      ensures (State(), r) == old(State()).PollAll(answers)
      ensures var drained := old(State()).Absorb(answers);
              Drained(old(State()), answers, drained) && AllPolled(drained, State(), r)
    {
      PollsExactly(State(), answers);
      Drain(answers);
      if promises == [] {
        r := Ready(finished);
        finished := [];
      } else {
        r := Pending;
      }
    }
  }

  // ---------------------------------------------------------------------------------------------
  // Order: one poll with every promise ready keeps insertion order
  // ---------------------------------------------------------------------------------------------

  predicate AllReady<T>(answers: seq<Poll<T>>) {
    forall i :: 0 <= i < |answers| ==> answers[i].Ready?
  }

  lemma {:induction false} ValuesInOrder<T>(answers: seq<Poll<T>>)
    requires AllReady(answers)
    ensures |Values(answers)| == |answers|
    ensures forall i :: 0 <= i < |answers| ==> Values(answers)[i] == answers[i].value
  {
    if answers != [] {
      ValuesInOrder(answers[1..]);
    }
  }

  lemma {:induction false} UnresolvedWhenPending<P, T>(promises: seq<P>, answers: seq<Poll<T>>)
    requires |promises| == |answers|
    ensures Unresolved(promises, answers) == [] <==> AllReady(answers)
  {
    if answers != [] {
      UnresolvedWhenPending(promises[1..], answers[1..]);
      assert AllReady(answers) <==> answers[0].Ready? && AllReady(answers[1..]) by {
        if answers[0].Ready? && AllReady(answers[1..]) {
          forall i | 0 <= i < |answers| ensures answers[i].Ready? {
            if i > 0 { assert answers[i] == answers[1..][i - 1]; }
          }
        }
      }
    }
  }

  /** A fresh set polled once is ready exactly when all its promises are, and then yields their values
      in insertion order. */
  lemma SinglePollKeepsOrder<P, T>(promises: seq<P>, answers: seq<Poll<T>>)
    requires |promises| == |answers|
    ensures var r := SetState(promises, []).PollAll(answers).1;
            && (r.Ready? <==> AllReady(answers))
            && (r.Ready? ==>
                  && |r.value| == |promises|
                  && forall i :: 0 <= i < |promises| ==> r.value[i] == answers[i].value)
  {
    UnresolvedWhenPending(promises, answers);
    if AllReady(answers) {
      ValuesInOrder(answers);
    }
  }

  lemma ReadySetYieldsValues<P, T>(promises: seq<P>, answers: seq<Poll<T>>)
    requires |promises| == |answers| && AllReady(answers)
    ensures SetState(promises, []).PollAll(answers).1 == Ready(Values(answers))
  {
    UnresolvedWhenPending(promises, answers);
    assert [] + Values(answers) == Values(answers);
  }

  // ---------------------------------------------------------------------------------------------
  // Accounting over whole runs
  // ---------------------------------------------------------------------------------------------

  datatype Op<P, T> = DoInsert(p: P) | DoPollAny(answers: seq<Poll<T>>) | DoPollAll(answers: seq<Poll<T>>)

  /** A set together with everything that has passed through it. */
  datatype Ledger<P, T> = Ledger(
    state: SetState<P, T>,
    inserted: multiset<P>,
    resolved: multiset<P>,
    produced: multiset<T>,
    returned: multiset<T>)

  predicate Enabled<P, T>(l: Ledger<P, T>, op: Op<P, T>) {
    op.DoInsert? || |op.answers| == |l.state.promises|
  }

  function Apply<P(==), T(==)>(l: Ledger<P, T>, op: Op<P, T>): Ledger<P, T>
    requires Enabled(l, op)
  {
    match op
    case DoInsert(p) => l.(state := l.state.Insert(p), inserted := l.inserted + multiset{p})
    case DoPollAny(answers) =>
      var (s, r) := l.state.PollAny(answers);
      l.(state := s,
         resolved := l.resolved + multiset(Resolved(l.state.promises, answers)),
         produced := l.produced + multiset(Values(answers)),
         returned := l.returned + (if r.Some? && r.value.Ready? then multiset{r.value.value} else multiset{}))
    case DoPollAll(answers) =>
      var (s, r) := l.state.PollAll(answers);
      l.(state := s,
         resolved := l.resolved + multiset(Resolved(l.state.promises, answers)),
         produced := l.produced + multiset(Values(answers)),
         returned := l.returned + (if r.Ready? then multiset(r.value) else multiset{}))
  }

  ghost predicate IsRun<P, T>(run: seq<Ledger<P, T>>, ops: seq<Op<P, T>>) {
    && |run| == |ops| + 1
    && run[0] == Ledger(SetState([], []), multiset{}, multiset{}, multiset{}, multiset{})
    && forall i :: 0 <= i < |ops| ==> Enabled(run[i], ops[i]) && run[i + 1] == Apply(run[i], ops[i])
  }

  ghost predicate Balanced<P, T>(l: Ledger<P, T>) {
    && l.produced == l.returned + multiset(l.state.finished)
    && l.inserted == l.resolved + multiset(l.state.promises)
  }

  lemma {:induction false} ResolvedSplits<P, T>(promises: seq<P>, answers: seq<Poll<T>>)
    requires |promises| == |answers|
    ensures multiset(promises) == multiset(Resolved(promises, answers)) + multiset(Unresolved(promises, answers))
  {
    if answers != [] {
      ResolvedSplits(promises[1..], answers[1..]);
      assert promises == [promises[0]] + promises[1..];
    }
  }

  lemma SwapRemoveKeepsRest<T>(s: seq<T>)
    requires s != []
    ensures multiset(s) == multiset{s[0]} + multiset(SwapRemoveFirst(s))
  {
    if |s| == 1 {
      assert s == [s[0]];
    } else {
      assert s == [s[0]] + s[1..|s| - 1] + [s[|s| - 1]];
    }
  }

  lemma AbsorbBalances<P, T>(s: SetState<P, T>, answers: seq<Poll<T>>)
    requires |answers| == |s.promises|
    ensures var t := s.Absorb(answers);
            && multiset(t.finished) == multiset(s.finished) + multiset(Values(answers))
            && multiset(s.promises) == multiset(Resolved(s.promises, answers)) + multiset(t.promises)
  {
    ResolvedSplits(s.promises, answers);
  }

  lemma Rebalance<T>(produced: multiset<T>, returned: multiset<T>, stored: multiset<T>, values: multiset<T>,
                     out: multiset<T>, kept: multiset<T>)
    requires produced == returned + stored
    requires stored + values == out + kept
    ensures produced + values == (returned + out) + kept
  {
    assert returned + stored + values == returned + (stored + values);
    assert returned + out + kept == returned + (out + kept);
  }

  lemma ReturnBalances<T>(produced: multiset<T>, returned: multiset<T>, stored: seq<T>, values: multiset<T>,
                          finished: seq<T>)
    requires produced == returned + multiset(stored)
    requires multiset(finished) == multiset(stored) + values && finished != []
    ensures produced + values == (returned + multiset{finished[0]}) + multiset(SwapRemoveFirst(finished))
  {
    SwapRemoveKeepsRest(finished);
    Rebalance(produced, returned, multiset(stored), values, multiset{finished[0]}, multiset(SwapRemoveFirst(finished)));
  }

  lemma PollAnyReturns<P, T>(l: Ledger<P, T>, answers: seq<Poll<T>>)
    requires Enabled(l, DoPollAny(answers)) && l.produced == l.returned + multiset(l.state.finished)
    ensures var l' := Apply(l, DoPollAny(answers)); l'.produced == l'.returned + multiset(l'.state.finished)
  {
    var finished := l.state.finished + Values(answers);
    if finished != [] {
      ReturnBalances(l.produced, l.returned, l.state.finished, multiset(Values(answers)), finished);
    }
  }

  lemma PollAnyResolves<P, T>(l: Ledger<P, T>, answers: seq<Poll<T>>)
    requires Enabled(l, DoPollAny(answers)) && l.inserted == l.resolved + multiset(l.state.promises)
    ensures var l' := Apply(l, DoPollAny(answers)); l'.inserted == l'.resolved + multiset(l'.state.promises)
  {
    ResolvedSplits(l.state.promises, answers);
  }

  lemma PollAnyKeepsBalance<P, T>(l: Ledger<P, T>, answers: seq<Poll<T>>)
    requires Enabled(l, DoPollAny(answers)) && Balanced(l)
    ensures Balanced(Apply(l, DoPollAny(answers)))
  {
    PollAnyReturns(l, answers);
    PollAnyResolves(l, answers);
  }

  lemma PollAllKeepsBalance<P, T>(l: Ledger<P, T>, answers: seq<Poll<T>>)
    requires Enabled(l, DoPollAll(answers)) && Balanced(l)
    ensures Balanced(Apply(l, DoPollAll(answers)))
  {
    AbsorbBalances(l.state, answers);
  }

  lemma ApplyKeepsBalance<P, T>(l: Ledger<P, T>, op: Op<P, T>)
    requires Enabled(l, op) && Balanced(l)
    ensures Balanced(Apply(l, op))
  {
    match op {
      case DoInsert(p) =>
      case DoPollAny(answers) => PollAnyKeepsBalance(l, answers);
      case DoPollAll(answers) => PollAllKeepsBalance(l, answers);
    }
  }

  /** After any sequence of insertions and polls: the values handed out and those still stored are exactly
      the values the ready promises produced, and a promise that answered is never held, hence never
      polled, again: every insertion accounts for one answer or one promise still held. */
  lemma {:induction false} PromiseAccounting<P, T>(run: seq<Ledger<P, T>>, ops: seq<Op<P, T>>)
    requires IsRun(run, ops)
    ensures var l := run[|ops|];
            && l.produced == l.returned + multiset(l.state.finished)
            && l.inserted == l.resolved + multiset(l.state.promises)
  {
    if ops != [] {
      var n := |ops| - 1;
      PromiseAccounting(run[..n + 1], ops[..n]);
      ApplyKeepsBalance(run[n], ops[n]);
    }
  }

  // ---------------------------------------------------------------------------------------------
  // Reusable promises
  // ---------------------------------------------------------------------------------------------

  datatype Shared<T> = Init | Data(value: T)

  /** One poll by any clone; the source's answer is consulted only in `Init`. */
  function PollShared<T>(s: Shared<T>, source: Poll<T>): (Shared<T>, Poll<T>) {
    match s
    case Init => if source.Ready? then (Data(source.value), source) else (s, Pending)
    case Data(v) => (s, Ready(v))
  }

  class Reusable<T> {
    var state: Shared<T>

    constructor ()
      ensures state == Init
    {
      state := Init;
    }

    method PollClone(source: Poll<T>) returns (r: Poll<T>)
      modifies this
      ensures (state, r) == PollShared(old(state), source)
      ensures old(state).Data? ==> state == old(state)
      ensures r.Pending? <==> old(state).Init? && source.Pending?
      ensures r.Ready? ==> state == Data(r.value)
    {
      match state {
        case Init =>
          match source {
            case Ready(ready) =>
              state := Data(ready);
              return Ready(ready);
            case Pending => return Pending;
          }
        case Data(data) => return Ready(data);
      }
    }
  }

  /** The states a reusable goes through when its clones poll it in the order of `sources`. */
  function SharedAfter<T>(sources: seq<Poll<T>>): Shared<T> {
    if sources == [] then Init
    else PollShared(SharedAfter(sources[..|sources| - 1]), sources[|sources| - 1]).0
  }

  function CloneResult<T>(sources: seq<Poll<T>>, i: nat): Poll<T>
    requires i < |sources|
  {
    PollShared(SharedAfter(sources[..i]), sources[i]).1
  }

  lemma {:induction false} SharedAfterFirstReady<T>(sources: seq<Poll<T>>, first: nat)
    requires first < |sources| && sources[first].Ready?
    requires forall k :: 0 <= k < first ==> sources[k].Pending?
    ensures SharedAfter(sources) == Data(sources[first].value)
  {
    var n := |sources| - 1;
    if first < n {
      SharedAfterFirstReady(sources[..n], first);
    } else {
      SharedBeforeReady(sources[..n]);
    }
  }

  lemma {:induction false} SharedBeforeReady<T>(sources: seq<Poll<T>>)
    requires forall k :: 0 <= k < |sources| ==> sources[k].Pending?
    ensures SharedAfter(sources) == Init
  {
    if sources != [] {
      SharedBeforeReady(sources[..|sources| - 1]);
    }
  }

  /** However the polls of the clones interleave, all answers equal the first value the source gave: what
      the source would have answered later is never looked at. */
  lemma ClonesAgree<T>(sources: seq<Poll<T>>, first: nat, i: nat)
    requires first < |sources| && sources[first].Ready?
    requires forall k :: 0 <= k < first ==> sources[k].Pending?
    requires i < |sources|
    ensures CloneResult(sources, i) == if i < first then Pending else Ready(sources[first].value)
  {
    if i <= first {
      SharedBeforeReady(sources[..i]);
    } else {
      SharedAfterFirstReady(sources[..i], first);
    }
  }
}
