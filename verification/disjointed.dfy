/**
  Disjointed outputs, after src/backend/disjointed.rs: one vector, handed out element by element and
  slice by slice to claimants whose ranges the overlap checker accepted.
 */
module Disjointed {
  import opened Overlap
  import opened Promises
  import opened Sequences
  import opened Wrappers

  /** A claim: `get(i)` is the half-open range of one index and yields the bare element. */
  datatype Claim = Index(at: nat) | Slice(range: Range) {
    function Bounds(): Range {
      match this
      case Index(i) => Range(Included(i), Excluded(i + 1))
      case Slice(r) => r
    }

    /** The positions of a vector of length `n` this claim indexes: from `From()` up to `To(n)`. */
    function From(): int {
      match Bounds().start
      case Included(s) => s
      case Excluded(s) => s + 1
      case Unbounded => 0
    }

    function To(n: nat): int {
      match Bounds().end
      case Included(e) => e + 1
      case Excluded(e) => e
      case Unbounded => n
    }

    /** Slicing a vector of length `n` by this claim does not panic. */
    predicate InBounds(n: nat) {
      0 <= From() <= To(n) <= n
    }
  }

  lemma BoundsArePositions(c: Claim, n: nat, x: nat)
    requires c.InBounds(n) && x < n
    ensures Contains(c.Bounds(), x) <==> c.From() <= x < c.To(n)
  {
  }

  /** What `c` is entitled to when the vector is `v`. */
  function Expected<T>(v: seq<T>, c: Claim): seq<T>
    requires c.InBounds(|v|)
  {
    v[c.From()..c.To(|v|)]
  }

  /** The buffer behind the once-lock: absent until some poll finds the source ready. */
  type Buffer<T> = Option<seq<Option<T>>>

  datatype Delivery<+T> = Delivered(values: seq<T>) | NotReady | Panicked

  function IntoBuffer<T>(v: seq<T>): seq<Option<T>> {
    seq(|v|, i requires 0 <= i < |v| => Some(v[i]))
  }

  /** `OnceLock::get_or_try_init_opt` with the source promise as initialiser. */
  function Initialised<T>(b: Buffer<T>, source: Poll<seq<T>>): Buffer<T> {
    if b.None? && source.Ready? then Some(IntoBuffer(source.value)) else b
  }

  predicate AllPresent<T>(slots: seq<Option<T>>) {
    forall i :: 0 <= i < |slots| ==> slots[i].Some?
  }

  function Contents<T>(slots: seq<Option<T>>): seq<T>
    requires AllPresent(slots)
  {
    seq(|slots|, i requires 0 <= i < |slots| => slots[i].value)
  }

  /** The slots with those from `lo` up to `hi` taken. */
  function Emptied<T>(slots: seq<Option<T>>, lo: int, hi: int): (s: seq<Option<T>>)
    requires 0 <= lo <= hi <= |slots|
  {
    seq(|slots|, i requires 0 <= i < |slots| => if lo <= i < hi then None else slots[i])
  }

  /** One poll of claim `c`: its slots are emptied in order, up to the first that is already empty. */
  function PollClaim<T>(b: Buffer<T>, source: Poll<seq<T>>, c: Claim): (Buffer<T>, Delivery<T>) {
    match Initialised(b, source)
    case None => (None, NotReady)
    case Some(slots) =>
      if !c.InBounds(|slots|) then (Some(slots), Panicked)
      else
        var lo, hi := c.From(), c.To(|slots|);
        var taken := FirstEmpty(slots, lo, hi);
        var rest := Emptied(slots, lo, taken);
        if taken == hi then (Some(rest), Delivered(Contents(slots[lo..hi]))) else (Some(rest), Panicked)
  }

  /** The first empty slot at or after `lo`, or `hi`. */
  function FirstEmpty<T>(slots: seq<Option<T>>, lo: int, hi: int): (k: int)
    requires 0 <= lo <= hi <= |slots|
    ensures lo <= k <= hi && AllPresent(slots[lo..k])
    ensures k < hi ==> slots[k].None?
    decreases hi - lo
  {
    if lo == hi || slots[lo].None? then lo
    else
      var k := FirstEmpty(slots, lo + 1, hi);
      assert slots[lo..k] == [slots[lo]] + slots[lo + 1..k];
      k
  }

  lemma TakeOne<T>(slots: seq<Option<T>>, lo: int, i: int)
    requires 0 <= lo <= i < |slots| && slots[i].Some? && AllPresent(slots[lo..i])
    ensures Emptied(slots, lo, i)[i := None] == Emptied(slots, lo, i + 1)
    ensures AllPresent(slots[lo..i + 1])
    ensures Contents(slots[lo..i + 1]) == Contents(slots[lo..i]) + [slots[i].value]
  {
    assert slots[lo..i + 1] == slots[lo..i] + [slots[i]];
  }

  class Disjointed<T> {
    const checker: OverlapChecker
    var buffer: Buffer<T>

    constructor ()
      ensures buffer == None && checker.bounds == [] && fresh(checker)
    {
      checker := new OverlapChecker();
      buffer := None;
    }

    /** `get` and `get_range`. */
    method Get(c: Claim) returns (r: Option<Claim>)
      modifies checker
      ensures checker.bounds == Accept(old(checker.bounds), c.Bounds())
      ensures r == if AnyOverlap(old(checker.bounds), c.Bounds()) then None else Some(c)
      ensures old(Accepted(checker.bounds)) ==> Accepted(checker.bounds)
    {
      var fits := checker.Insert(c.Bounds());
      return if fits then Some(c) else None;
    }

    method Poll(source: Poll<seq<T>>, c: Claim) returns (d: Delivery<T>)
      modifies this
      ensures (buffer, d) == PollClaim(old(buffer), source, c)
    {
      buffer := Initialised(buffer, source);
      if buffer.None? {
        return NotReady;
      }
      var slots := buffer.value;
      if !c.InBounds(|slots|) {
        return Panicked;
      }
      var lo, hi := c.From(), c.To(|slots|);
      var i := lo;
      var values := [];
      assert Emptied(slots, lo, lo) == slots;
      while i < hi && slots[i].Some?
        invariant lo <= i <= hi <= |slots|
        invariant AllPresent(slots[lo..i]) && values == Contents(slots[lo..i])
        invariant buffer == Some(Emptied(slots, lo, i))
      {
        TakeOne(slots, lo, i);
        values := values + [slots[i].value];
        buffer := Some(buffer.value[i := None]);
        i := i + 1;
      }
      FirstEmptyIs(slots, lo, i, hi);
      return if i == hi then Delivered(values) else Panicked;
    }
  }

  lemma {:induction false} FirstEmptyIs<T>(slots: seq<Option<T>>, lo: int, k: int, hi: int)
    requires 0 <= lo <= k <= hi <= |slots|
    requires AllPresent(slots[lo..k]) && (k < hi ==> slots[k].None?)
    ensures FirstEmpty(slots, lo, hi) == k
    decreases k - lo
  {
    if lo < k {
      assert slots[lo] == slots[lo..k][0];
      assert slots[lo + 1..k] == slots[lo..k][1..];
      FirstEmptyIs(slots, lo + 1, k, hi);
    }
  }

  // ---------------------------------------------------------------------------------------------
  // Delivery
  // ---------------------------------------------------------------------------------------------

  /** Position `x` of the vector is covered by a claim. */
  predicate Covers(c: Claim, n: nat, x: int) {
    c.From() <= x < c.To(n)
  }

  /** No position is covered twice. */
  ghost predicate Apart(c: Claim, d: Claim, n: nat) {
    forall x :: Covers(c, n, x) ==> !Covers(d, n, x)
  }

  /** Slots not covered by a delivered claim still hold their element. */
  ghost predicate Untouched<T>(b: Buffer<T>, v: seq<T>, c: Claim) {
    b.Some? ==>
      && |b.value| == |v|
      && forall x :: 0 <= x < |v| && Covers(c, |v|, x) ==> b.value[x] == Some(v[x])
  }

  /** The slot at `x` is one of the claim's, and it and all before it in the claim are full. */
  predicate TakenBy<T>(slots: seq<Option<T>>, c: Claim, x: nat) {
    Covers(c, |slots|, x) && forall y :: c.From() <= y <= x && 0 <= y < |slots| ==> slots[y].Some?
  }

  /** A poll of a vector that is there: out of bounds it panics and leaves the slots; otherwise it empties the slots
      of the claim up to the first empty one, delivers if there is none, and panics if there is. */
  lemma PollExactly<T>(slots: seq<Option<T>>, source: Poll<seq<T>>, c: Claim)
    ensures !c.InBounds(|slots|) ==> PollClaim(Some(slots), source, c) == (Some(slots), Panicked)
    ensures c.InBounds(|slots|) ==>
              var (after, d) := PollClaim(Some(slots), source, c);
              && after.Some? && |after.value| == |slots|
              && (forall x :: 0 <= x < |slots| ==> after.value[x] == if TakenBy(slots, c, x) then None else slots[x])
              && (d.Delivered? <==> forall x :: c.From() <= x < c.To(|slots|) ==> slots[x].Some?)
              && (d.Delivered? ==>
                    && |d.values| == c.To(|slots|) - c.From()
                    && forall x :: c.From() <= x < c.To(|slots|) ==> slots[x] == Some(d.values[x - c.From()]))
              && (!d.Delivered? ==> d.Panicked?)
  {
    if c.InBounds(|slots|) {
      var lo, hi := c.From(), c.To(|slots|);
      var k := FirstEmpty(slots, lo, hi);
      forall x | lo <= x < k ensures slots[x].Some? {
        assert slots[lo..k][x - lo].Some?;
      }
    }
  }

  /** Before the vector is there, a poll asks the source, and leaves the claim alone unless it answers. */
  lemma FirstPollExactly<T>(source: Poll<seq<T>>, c: Claim)
    ensures source.Pending? ==> PollClaim(None, source, c) == (None, NotReady)
    ensures source.Ready? ==>
              forall slots: seq<Option<T>> ::
                |slots| == |source.value| && (forall x :: 0 <= x < |slots| ==> slots[x] == Some(source.value[x])) ==>
                  PollClaim(None, source, c) == PollClaim(Some(slots), source, c)
  {
    if source.Ready? {
      forall slots: seq<Option<T>>
        | |slots| == |source.value| && forall x :: 0 <= x < |slots| ==> slots[x] == Some(source.value[x])
        ensures PollClaim(None, source, c) == PollClaim(Some(slots), source, c)
      {
        assert slots == IntoBuffer(source.value);
      }
    }
  }

  /** The poll of a claim whose slots are untouched delivers exactly its part of the vector. */
  lemma PollDelivers<T>(b: Buffer<T>, v: seq<T>, source: Poll<seq<T>>, c: Claim)
    requires c.InBounds(|v|) && Untouched(b, v, c)
    requires b.None? ==> source == Ready(v)
    ensures PollClaim(b, source, c).1 == Delivered(Expected(v, c))
  {
    var slots := Initialised(b, source).value;
    CoveredSlots(slots, v, c);
    FirstEmptyIs(slots, c.From(), c.To(|v|), c.To(|v|));
  }

  lemma CoveredSlots<T>(slots: seq<Option<T>>, v: seq<T>, c: Claim)
    requires |slots| == |v| && c.InBounds(|v|)
    requires forall x :: 0 <= x < |v| && Covers(c, |v|, x) ==> slots[x] == Some(v[x])
    ensures AllPresent(slots[c.From()..c.To(|v|)])
    ensures Contents(slots[c.From()..c.To(|v|)]) == Expected(v, c)
  {
    var lo, hi := c.From(), c.To(|v|);
    forall i | 0 <= i < hi - lo ensures slots[lo..hi][i] == Some(v[lo..hi][i]) {
      assert Covers(c, |v|, lo + i);
    }
  }

  /** Polling one claim leaves the slots of every claim apart from it alone. */
  lemma PollLeavesOthers<T>(b: Buffer<T>, v: seq<T>, source: Poll<seq<T>>, c: Claim, d: Claim)
    requires (c.InBounds(|v|) ==> Apart(c, d, |v|)) && Untouched(b, v, d)
    requires source.Ready? ==> source.value == v
    ensures Untouched(PollClaim(b, source, c).0, v, d)
  {
    match Initialised(b, source) {
      case None =>
      case Some(slots) =>
        var after := PollClaim(b, source, c).0.value;
        if |slots| == |v| && c.InBounds(|slots|) {
          var lo, taken := c.From(), FirstEmpty(slots, c.From(), c.To(|v|));
          forall x | 0 <= x < |v| && Covers(d, |v|, x) ensures after[x] == Some(v[x]) {
            assert !Covers(c, |v|, x);
            assert x < lo || taken <= x;
          }
        }
    }
  }

  /** After the poll of a claim its slots are empty, whatever the poll gave. */
  lemma PolledSlotIsEmpty<T>(v: seq<T>, c: Claim, x: nat)
    requires c.InBounds(|v|) && x < |v| && Covers(c, |v|, x)
    ensures PollClaim(None, Ready(v), c).0.Some?
    ensures var slots := PollClaim(None, Ready(v), c).0.value; |slots| == |v| && slots[x].None?
  {
    var slots := IntoBuffer(v);
    CoveredSlots(slots, v, c);
    FirstEmptyIs(slots, c.From(), c.To(|v|), c.To(|v|));
  }

  lemma EmptySlotPanics<T>(slots: seq<Option<T>>, source: Poll<seq<T>>, d: Claim, x: nat)
    requires d.InBounds(|slots|) && x < |slots| && Covers(d, |slots|, x) && slots[x].None?
    ensures PollClaim(Some(slots), source, d).1 == Panicked
  {
    var claimed := slots[d.From()..d.To(|slots|)];
    assert claimed[x - d.From()].None?;
    assert !AllPresent(claimed);
  }

  /** Of two claims within bounds, polled one after the other, the second is delivered exactly if no position
      is claimed by both; otherwise it panics. */
  lemma SecondDeliversIffApart<T>(v: seq<T>, c: Claim, d: Claim, source: Poll<seq<T>>)
    requires c.InBounds(|v|) && d.InBounds(|v|) && (source.Ready? ==> source.value == v)
    ensures var second := PollClaim(PollClaim(None, Ready(v), c).0, source, d).1;
            && (second == Delivered(Expected(v, d)) <==> Apart(c, d, |v|))
            && (second == Panicked <==> !Apart(c, d, |v|))
  {
    var after := PollClaim(None, Ready(v), c).0;
    if Apart(c, d, |v|) {
      PollLeavesOthers(None, v, Ready(v), c, d);
      PollDelivers(after, v, source, d);
    } else {
      var x :| Covers(c, |v|, x) && Covers(d, |v|, x);
      PolledSlotIsEmpty(v, c, x);
      EmptySlotPanics(after.value, source, d, x);
    }
  }

  lemma AcceptedClaimsApart(c: Claim, d: Claim, n: nat)
    requires !RangesOverlap(c.Bounds(), d.Bounds()) && !BlindSpot(c.Bounds(), d.Bounds())
    requires c.InBounds(n) && d.InBounds(n)
    ensures Apart(c, d, n)
  {
    OverlapExactly(c.Bounds(), d.Bounds());
    forall x | Covers(c, n, x) ensures !Covers(d, n, x) {
      if Covers(d, n, x) {
        BoundsArePositions(c, n, x);
        BoundsArePositions(d, n, x);
        assert Share(c.Bounds(), d.Bounds());
      }
    }
  }

  /** A poll in a run: which claim, and what the source answers if it is consulted. */
  datatype PollEvent<T> = PollEvent(claim: nat, source: Poll<seq<T>>)

  function BufferAfter<T>(claims: seq<Claim>, events: seq<PollEvent<T>>): Buffer<T>
    requires forall i :: 0 <= i < |events| ==> events[i].claim < |claims|
  {
    if events == [] then None
    else
      var n := |events| - 1;
      PollClaim(BufferAfter(claims, events[..n]), events[n].source, claims[events[n].claim]).0
  }

  function Answer<T>(claims: seq<Claim>, events: seq<PollEvent<T>>, i: nat): Delivery<T>
    requires i < |events|
    requires forall k :: 0 <= k < |events| ==> events[k].claim < |claims|
  {
    PollClaim(BufferAfter(claims, events[..i]), events[i].source, claims[events[i].claim]).1
  }

  /** A run in which the source only ever becomes ready with `v`, and a claim that was delivered is not
      polled again. */
  ghost predicate ProperRun<T>(claims: seq<Claim>, v: seq<T>, events: seq<PollEvent<T>>) {
    && (forall i :: 0 <= i < |events| ==> events[i].claim < |claims|)
    && (forall i :: 0 <= i < |events| && events[i].source.Ready? ==> events[i].source.value == v)
    && forall i, j :: 0 <= i < j < |events| && events[i].claim == events[j].claim ==>
                        Answer(claims, events, i).NotReady?
  }

  /** The claims a checker accepted, none of them in the blind spot, all inside the vector. */
  ghost predicate ProperClaims(claims: seq<Claim>, n: nat) {
    && (forall i, j :: 0 <= i < j < |claims| ==>
          !RangesOverlap(claims[i].Bounds(), claims[j].Bounds()) && !BlindSpot(claims[i].Bounds(), claims[j].Bounds()))
    && forall i :: 0 <= i < |claims| ==> claims[i].InBounds(n)
  }

  lemma ProperClaimsApart(claims: seq<Claim>, n: nat, i: nat, j: nat)
    requires ProperClaims(claims, n) && i < |claims| && j < |claims| && i != j
    ensures Apart(claims[i], claims[j], n)
  {
    if i < j {
      AcceptedClaimsApart(claims[i], claims[j], n);
    } else {
      AcceptedClaimsApart(claims[j], claims[i], n);
    }
  }

  /** Until `c` is delivered its slots are untouched, whatever the others did. */
  lemma {:induction false} UntouchedUntilDelivered<T>(claims: seq<Claim>, v: seq<T>, events: seq<PollEvent<T>>, c: nat)
    requires ProperClaims(claims, |v|) && ProperRun(claims, v, events) && c < |claims|
    requires forall i :: 0 <= i < |events| && events[i].claim == c ==> Answer(claims, events, i).NotReady?
    ensures Untouched(BufferAfter(claims, events), v, claims[c])
  {
    if events != [] {
      var n := |events| - 1;
      var before := events[..n];
      forall i | 0 <= i < n ensures Answer(claims, before, i) == Answer(claims, events, i) {
        assert before[..i] == events[..i];
      }
      UntouchedUntilDelivered(claims, v, before, c);
      var d := events[n].claim;
      if d == c {
        assert Answer(claims, events, n).NotReady?;
      } else {
        ProperClaimsApart(claims, |v|, d, c);
        PollLeavesOthers(BufferAfter(claims, before), v, events[n].source, claims[d], claims[c]);
      }
    }
  }

  /** Every poll of a proper run either finds the source not ready yet or delivers exactly the claimed part
      of the vector; none meets an emptied slot. */
  lemma EveryPollDelivers<T>(claims: seq<Claim>, v: seq<T>, events: seq<PollEvent<T>>, i: nat)
    requires ProperClaims(claims, |v|) && ProperRun(claims, v, events) && i < |events|
    ensures var a := Answer(claims, events, i);
            && (a == NotReady || a == Delivered(Expected(v, claims[events[i].claim])))
            && (a == NotReady <==> forall k :: 0 <= k <= i ==> events[k].source.Pending?)
  {
    var before := events[..i];
    var c := events[i].claim;
    forall k | 0 <= k < i ensures Answer(claims, before, k) == Answer(claims, events, k) {
      assert before[..k] == events[..k];
    }
    UntouchedUntilDelivered(claims, v, before, c);
    BufferIsSet(claims, before);
    if BufferAfter(claims, before).Some? || events[i].source.Ready? {
      PollDelivers(BufferAfter(claims, before), v, events[i].source, claims[c]);
    }
  }

  /** The source is consumed once: the buffer is absent exactly until the first ready answer. */
  lemma {:induction false} BufferIsSet<T>(claims: seq<Claim>, events: seq<PollEvent<T>>)
    requires forall i :: 0 <= i < |events| ==> events[i].claim < |claims|
    ensures BufferAfter(claims, events).None? <==> forall k :: 0 <= k < |events| ==> events[k].source.Pending?
  {
    if events != [] {
      BufferIsSet(claims, events[..|events| - 1]);
    }
  }

  /** No element is delivered twice: at each position claimed, the part of exactly one claim holds the vector's
      element. */
  lemma DeliveredOnce<T>(claims: seq<Claim>, v: seq<T>, x: nat)
    requires ProperClaims(claims, |v|) && x < |v|
    requires exists c :: 0 <= c < |claims| && Covers(claims[c], |v|, x)
    ensures exists c :: 0 <= c < |claims| && Covers(claims[c], |v|, x)
              && Expected(v, claims[c])[x - claims[c].From()] == v[x]
              && forall d :: 0 <= d < |claims| && d != c ==> !Covers(claims[d], |v|, x)
  {
    var c :| 0 <= c < |claims| && Covers(claims[c], |v|, x);
    forall d | 0 <= d < |claims| && d != c ensures !Covers(claims[d], |v|, x) {
      ProperClaimsApart(claims, |v|, c, d);
    }
  }

  // ---------------------------------------------------------------------------------------------
  // Reassembly
  // ---------------------------------------------------------------------------------------------

  predicate Indexes(order: seq<nat>, claims: seq<Claim>) {
    forall i :: 0 <= i < |order| ==> order[i] < |claims|
  }

  /** The claims listed in `order` cover the positions up to `m`, one after the other. */
  ghost predicate Tile(claims: seq<Claim>, order: seq<nat>, n: nat, m: nat)
    requires Indexes(order, claims)
    decreases |order|
  {
    if order == [] then m == 0
    else
      var last := claims[order[|order| - 1]];
      last.InBounds(n) && last.To(n) == m && Tile(claims, order[..|order| - 1], n, last.From())
  }

  predicate Ends(c: Claim, n: nat, m: nat) {
    c.From() < c.To(n) <= m
  }

  /** Every claim ends before or at `m`, starts at or after it, or is empty. */
  ghost predicate Cut(claims: seq<Claim>, n: nat, m: nat) {
    forall c :: 0 <= c < |claims| ==>
                  claims[c].To(n) <= m || m <= claims[c].From() || claims[c].To(n) <= claims[c].From()
  }

  ghost predicate Covered(claims: seq<Claim>, n: nat, x: int) {
    exists c :: 0 <= c < |claims| && Covers(claims[c], n, x)
  }

  /** A claim that ends at a cut starts at one. */
  lemma CutBefore(claims: seq<Claim>, n: nat, m: nat, last: nat)
    requires ProperClaims(claims, n) && Cut(claims, n, m) && last < |claims| && Ends(claims[last], n, m)
    ensures Cut(claims, n, claims[last].From())
    ensures forall c :: 0 <= c < |claims| && Ends(claims[c], n, claims[last].To(n)) ==>
                          c == last || Ends(claims[c], n, claims[last].From())
  {
    var lo, hi := claims[last].From(), claims[last].To(n);
    forall c | 0 <= c < |claims| && c != last && claims[c].From() < claims[c].To(n)
      ensures claims[c].To(n) <= lo || hi <= claims[c].From()
    {
      ProperClaimsApart(claims, n, c, last);
      assert Covers(claims[last], n, lo) && Covers(claims[last], n, claims[c].From()) == (lo <= claims[c].From() < hi);
      assert Covers(claims[c], n, claims[c].From());
      assert Covers(claims[c], n, lo) == (claims[c].From() <= lo < claims[c].To(n));
    }
  }

  /** Proper claims that cover the positions up to a cut can be put in an order in which they tile them. */
  lemma {:induction false} ClaimsTile(claims: seq<Claim>, n: nat, m: nat) returns (order: seq<nat>)
    requires ProperClaims(claims, n) && m <= n && Cut(claims, n, m)
    requires forall x :: 0 <= x < m ==> Covered(claims, n, x)
    ensures Distinct(order) && Indexes(order, claims)
    ensures forall c :: 0 <= c < |claims| ==> (c in order <==> Ends(claims[c], n, m))
    ensures Tile(claims, order, n, m)
    decreases m
  {
    if m == 0 {
      order := [];
    } else {
      assert Covered(claims, n, m - 1);
      var last: nat :| last < |claims| && Covers(claims[last], n, m - 1);
      assert claims[last].To(n) == m;
      CutBefore(claims, n, m, last);
      var before := ClaimsTile(claims, n, claims[last].From());
      order := before + [last];
      assert order[..|order| - 1] == before;
    }
  }

  /** The values with which a claim was answered in a run; none if it was not. */
  ghost function Received<T>(claims: seq<Claim>, events: seq<PollEvent<T>>, c: nat): seq<T>
    requires forall k :: 0 <= k < |events| ==> events[k].claim < |claims|
  {
    if exists i :: 0 <= i < |events| && events[i].claim == c && Answer(claims, events, i).Delivered? then
      var i :| 0 <= i < |events| && events[i].claim == c && Answer(claims, events, i).Delivered?;
      Answer(claims, events, i).values
    else []
  }

  /** What the listed claims have received, put together. */
  ghost function Joined<T>(claims: seq<Claim>, events: seq<PollEvent<T>>, order: seq<nat>): seq<T>
    requires forall k :: 0 <= k < |events| ==> events[k].claim < |claims|
  {
    if order == [] then []
    else Joined(claims, events, order[..|order| - 1]) + Received(claims, events, order[|order| - 1])
  }

  /** The claim has been answered with something else than not being ready. */
  ghost predicate Answered<T>(claims: seq<Claim>, events: seq<PollEvent<T>>, c: nat)
    requires forall k :: 0 <= k < |events| ==> events[k].claim < |claims|
  {
    exists i :: 0 <= i < |events| && events[i].claim == c && !Answer(claims, events, i).NotReady?
  }

  ghost predicate AllAnswered<T>(claims: seq<Claim>, events: seq<PollEvent<T>>)
    requires forall k :: 0 <= k < |events| ==> events[k].claim < |claims|
  {
    forall c :: 0 <= c < |claims| ==> Answered(claims, events, c)
  }

  lemma ReceivedIsExpected<T>(claims: seq<Claim>, v: seq<T>, events: seq<PollEvent<T>>, c: nat)
    requires ProperClaims(claims, |v|) && ProperRun(claims, v, events) && AllAnswered(claims, events) && c < |claims|
    ensures Received(claims, events, c) == Expected(v, claims[c])
  {
    forall i | 0 <= i < |events| && events[i].claim == c
      ensures Answer(claims, events, i).NotReady? || Answer(claims, events, i) == Delivered(Expected(v, claims[c]))
    {
      EveryPollDelivers(claims, v, events, i);
    }
    assert Answered(claims, events, c);
    var i :| 0 <= i < |events| && events[i].claim == c && !Answer(claims, events, i).NotReady?;
    assert Answer(claims, events, i).Delivered?;
  }

  lemma {:induction false} TilesJoin<T>(claims: seq<Claim>, v: seq<T>, events: seq<PollEvent<T>>, order: seq<nat>,
                                        m: nat)
    requires (forall k :: 0 <= k < |events| ==> events[k].claim < |claims|) && m <= |v|
    requires Indexes(order, claims) && Tile(claims, order, |v|, m)
    requires forall i :: 0 <= i < |order| && claims[order[i]].InBounds(|v|) ==>
                           Received(claims, events, order[i]) == Expected(v, claims[order[i]])
    ensures Joined(claims, events, order) == v[..m]
    decreases |order|
  {
    if order != [] {
      var lo := claims[order[|order| - 1]].From();
      TilesJoin(claims, v, events, order[..|order| - 1], lo);
      assert v[..m] == v[..lo] + v[lo..m];
    }
  }

  /** Accepted claims that cover the vector reassemble it: what a run that answers them all has delivered to those
      that are not empty is, in some order, the vector. */
  lemma DeliveriesReassemble<T>(claims: seq<Claim>, v: seq<T>, events: seq<PollEvent<T>>) returns (order: seq<nat>)
    requires ProperClaims(claims, |v|) && ProperRun(claims, v, events) && AllAnswered(claims, events)
    requires forall x :: 0 <= x < |v| ==> Covered(claims, |v|, x)
    ensures Distinct(order)
    ensures forall c: nat :: c in order <==> c < |claims| && Expected(v, claims[c]) != []
    ensures Joined(claims, events, order) == v
  {
    order := ClaimsTile(claims, |v|, |v|);
    forall i | 0 <= i < |order| ensures Received(claims, events, order[i]) == Expected(v, claims[order[i]]) {
      ReceivedIsExpected(claims, v, events, order[i]);
    }
    TilesJoin(claims, v, events, order, |v|);
    assert v[..|v|] == v;
  }

  /** `..1` and `..2` are both accepted; the second of them to be polled panics. */
  lemma BlindSpotPanics()
    ensures var a, b := Slice(Range(Unbounded, Excluded(1))), Slice(Range(Unbounded, Excluded(2)));
            && AcceptAll([a.Bounds(), b.Bounds()]) == [a.Bounds(), b.Bounds()]
            && PollClaim(PollClaim(None, Ready([7, 8]), a).0, Pending, b).1 == Panicked
            && PollClaim(PollClaim(None, Ready([7, 8]), b).0, Pending, a).1 == Panicked
  {
    var a, b := Slice(Range(Unbounded, Excluded(1))), Slice(Range(Unbounded, Excluded(2)));
    assert [a.Bounds(), b.Bounds()][..1] == [a.Bounds()] && [a.Bounds()][..0] == [];
    assert AcceptAll([]) == [] && AcceptAll([a.Bounds()]) == [a.Bounds()];
    var slots := IntoBuffer([7, 8]);
    FirstEmptyIs(slots, 0, 1, 1);
    FirstEmptyIs(slots, 0, 2, 2);
    FirstEmptyIs([None, Some(8)], 0, 0, 2);
    assert Emptied(slots, 0, 1) == [None, Some(8)];
    assert Emptied(slots, 0, 2) == [None, None];
    FirstEmptyIs<int>([None, None], 0, 0, 1);
  }
}
