/**
  Range claims, after src/backend/overlap_checking.rs.

  `RangesOverlap` is the test the checker applies to an accepted range and a new one.  It is exact
  up to two families of pairs: it misses pairs whose starts are both unbounded (`BlindSpot`) and it
  reports some pairs that share nothing (`FalseAlarm`).  Both families are stated on the bounds alone.
 */
module Overlap {

  datatype Bound = Included(at: nat) | Excluded(at: nat) | Unbounded

  datatype Range = Range(start: Bound, end: Bound)

  datatype Ordering = Less | Equal | Greater

  datatype PartialOrdering = Comparable(order: Ordering) | Incomparable

  /** Membership in a range: the meaning the overlap test is measured against. */
  predicate Contains(r: Range, x: nat) {
    && (match r.start
        case Included(s) => s <= x
        case Excluded(s) => s < x
        case Unbounded => true)
    && (match r.end
        case Included(e) => x <= e
        case Excluded(e) => x < e
        case Unbounded => true)
  }

  ghost predicate Share(a: Range, b: Range) {
    exists x: nat :: Contains(a, x) && Contains(b, x)
  }

  function Compare(a: int, b: int): Ordering {
    if a < b then Less else if a == b then Equal else Greater
  }

  function CompareBound(a: Bound, b: Bound): PartialOrdering {
    match (a, b)
    case (_, Unbounded) => Comparable(Less)
    case (Unbounded, _) => Comparable(Greater)
    case (Included(x), Included(y)) => Comparable(Compare(x, y))
    case (Excluded(x), Excluded(y)) => Comparable(Compare(x, y))
    case (_, _) => if a.at == b.at then Incomparable else Comparable(Compare(a.at, b.at))
  }

  function MaxStartBound(a: Bound, b: Bound): Bound {
    match (a, b)
    case (Unbounded, _) => b
    case (_, Unbounded) => a
    case (Excluded(x), Included(y)) => if x >= y then a else b
    case (_, _) => if a.at > b.at then a else b
  }

  function MinEndBound(a: Bound, b: Bound): Bound {
    match (a, b)
    case (Unbounded, _) => b
    case (_, Unbounded) => a
    case (_, _) => if a.at < b.at then a else b
  }

  predicate RangesOverlap(a: Range, b: Range) {
    var low := MaxStartBound(a.start, b.start);
    var high := MinEndBound(a.end, b.end);
    CompareBound(low, high) in {Comparable(Less), Comparable(Equal)}
  }

  /** Both starts are unbounded and at least one end is not: never reported. */
  predicate BlindSpot(a: Range, b: Range) {
    a.start.Unbounded? && b.start.Unbounded? && !(a.end.Unbounded? && b.end.Unbounded?)
  }

  /** An excluded end of the first range meets an included end of the second at the same point. */
  predicate MixedEnds(a: Range, b: Range) {
    a.end.Excluded? && b.end.Included? && a.end.at == b.end.at
  }

  /** Reported although nothing is shared. */
  predicate FalseAlarm(a: Range, b: Range) {
    var low := MaxStartBound(a.start, b.start);
    var high := MinEndBound(a.end, b.end);
    || (low.Included? && MixedEnds(a, b) && low.at == a.end.at)
    || (low.Excluded? && MixedEnds(a, b) && low.at == a.end.at - 1)
    || (low.Excluded? && high.Excluded? && low.at <= high.at <= low.at + 1)
  }

  /** The index that lies in both ranges whenever any does. */
  function FirstShared(a: Range, b: Range): nat {
    match MaxStartBound(a.start, b.start)
    case Included(s) => s
    case Excluded(s) => s + 1
    case Unbounded => 0
  }

  lemma FirstSharedIsShared(a: Range, b: Range)
    ensures Share(a, b) <==> Contains(a, FirstShared(a, b)) && Contains(b, FirstShared(a, b))
  {
    if x: nat :| Contains(a, x) && Contains(b, x) {
      assert Contains(a, FirstShared(a, b)) && Contains(b, FirstShared(a, b));
    }
  }

  /** The test, exactly, for every pair of ranges. */
  lemma OverlapExactly(a: Range, b: Range)
    ensures RangesOverlap(a, b) <==> (Share(a, b) && !BlindSpot(a, b)) || FalseAlarm(a, b)
    ensures BlindSpot(a, b) ==> (Share(a, b) <==> a.end != Excluded(0) && b.end != Excluded(0))
    ensures FalseAlarm(a, b) ==> !Share(a, b)
  {
    FirstSharedIsShared(a, b);
  }

  /** On half-open ranges the only defect is the blind spot. */
  lemma OverlapOnHalfOpen(a: Range, b: Range)
    requires !a.start.Excluded? && !b.start.Excluded?
    requires !a.end.Included? && !b.end.Included?
    ensures RangesOverlap(a, b) <==> Share(a, b) && !BlindSpot(a, b)
  {
    OverlapExactly(a, b);
  }

  /** The test depends on the order of the ranges exactly when an excluded and an included end meet at the point
      where the later range starts. */
  lemma OverlapSymmetry(a: Range, b: Range)
    ensures var low := MaxStartBound(a.start, b.start);
            RangesOverlap(a, b) != RangesOverlap(b, a) <==>
              (MixedEnds(a, b) || MixedEnds(b, a)) && !low.Unbounded? && low.at == a.end.at
  {
  }

  /** `..3` and `..5` share 0 and are both accepted; `0..3` then `3..=3` share nothing and are refused,
      while the same two in the other order are both accepted. */
  lemma OverlapDefects()
    ensures var a, b := Range(Unbounded, Excluded(3)), Range(Unbounded, Excluded(5));
            Share(a, b) && !RangesOverlap(a, b)
    ensures var a, b := Range(Included(0), Excluded(3)), Range(Included(3), Included(3));
            !Share(a, b) && RangesOverlap(a, b) && !RangesOverlap(b, a)
  {
    var a, b := Range(Unbounded, Excluded(3)), Range(Unbounded, Excluded(5));
    assert Contains(a, 0) && Contains(b, 0);
  }

  // ---------------------------------------------------------------------------------------------
  // The checker
  // ---------------------------------------------------------------------------------------------

  predicate AnyOverlap(bounds: seq<Range>, r: Range) {
    exists i :: 0 <= i < |bounds| && RangesOverlap(bounds[i], r)
  }

  function Accept(bounds: seq<Range>, r: Range): seq<Range> {
    if AnyOverlap(bounds, r) then bounds else bounds + [r]
  }

  /** No accepted range was reported against an earlier accepted one. */
  ghost predicate Accepted(bounds: seq<Range>) {
    forall i, j :: 0 <= i < j < |bounds| ==> !RangesOverlap(bounds[i], bounds[j])
  }

  /** The ranges a checker holds after a whole sequence of insertions. */
  function AcceptAll(requests: seq<Range>): seq<Range> {
    if requests == [] then []
    else Accept(AcceptAll(requests[..|requests| - 1]), requests[|requests| - 1])
  }

  /** Over any sequence of insertions, two accepted ranges share an index only in the blind spot. */
  lemma {:induction false} AcceptedRangesDisjoint(requests: seq<Range>)
    ensures Accepted(AcceptAll(requests))
    ensures var kept := AcceptAll(requests);
            forall i, j :: 0 <= i < j < |kept| && Share(kept[i], kept[j]) ==> BlindSpot(kept[i], kept[j])
  {
    if requests != [] {
      AcceptedRangesDisjoint(requests[..|requests| - 1]);
    }
    var kept := AcceptAll(requests);
    forall i, j | 0 <= i < j < |kept| && Share(kept[i], kept[j])
      ensures BlindSpot(kept[i], kept[j])
    {
      OverlapExactly(kept[i], kept[j]);
    }
  }

  class OverlapChecker {
    var bounds: seq<Range>

    constructor ()
      ensures bounds == []
    {
      bounds := [];
    }

    method Insert(range: Range) returns (fits: bool)
      modifies this
      ensures fits == !AnyOverlap(old(bounds), range)
      ensures bounds == Accept(old(bounds), range)
      ensures old(Accepted(bounds)) ==> Accepted(bounds)
    {
      var anyOverlap := false;
      var i := 0;
      while i < |bounds| && !anyOverlap
        invariant 0 <= i <= |bounds|
        invariant anyOverlap <==> exists k :: 0 <= k < i && RangesOverlap(bounds[k], range)
      {
        anyOverlap := RangesOverlap(bounds[i], range);
        i := i + 1;
      }
      if anyOverlap {
        return false;
      }
      bounds := bounds + [range];
      return true;
    }
  }
}
