/**
  The dispatch order of src/backend/flow_backend.rs: ready jobs wait in a heap ordered by the ratio of
  dependents to the step in which they became ready, compared by multiplying crosswise with saturation.
 */
module Dispatch {
  import opened Graphs
  import opened Overlap

  const MAX_USIZE: nat := 0xFFFF_FFFF_FFFF_FFFF

  datatype Weighted = Weighted(job: JobId, dependents: nat, step: nat)

  function SaturatingMul(a: nat, b: nat): nat {
    if a * b <= MAX_USIZE then a * b else MAX_USIZE
  }

  /** `Ord::cmp`. */
  function Cmp(a: Weighted, b: Weighted): Ordering {
    Compare(SaturatingMul(a.dependents, b.step), SaturatingMul(b.dependents, a.step))
  }

  /** `PartialEq::eq`. */
  predicate SameWeight(a: Weighted, b: Weighted) {
    a.dependents == b.dependents && a.step == b.step
  }

  // ---------------------------------------------------------------------------------------------
  // What the comparison means
  // ---------------------------------------------------------------------------------------------

  function Ratio(a: Weighted): real
    requires a.step > 0
  {
    a.dependents as real / a.step as real
  }

  function CompareReal(a: real, b: real): Ordering {
    if a < b then Less else if a == b then Equal else Greater
  }

  lemma CrossMultiply(a: Weighted, b: Weighted)
    requires a.step > 0 && b.step > 0
    ensures Ratio(a) < Ratio(b) <==> a.dependents * b.step < b.dependents * a.step
    ensures Ratio(a) == Ratio(b) <==> a.dependents * b.step == b.dependents * a.step
  {
    ScaleUp(a, b);
    var s := a.step as real * b.step as real;
    ScaleCompares(Ratio(a), Ratio(b), s);
  }

  lemma ScaleUp(a: Weighted, b: Weighted)
    requires a.step > 0 && b.step > 0
    ensures a.step as real * b.step as real > 0.0
    ensures Ratio(a) * (a.step as real * b.step as real) == (a.dependents * b.step) as real
    ensures Ratio(b) * (a.step as real * b.step as real) == (b.dependents * a.step) as real
  {
    var x, y := a.step as real, b.step as real;
    assert Ratio(a) * x == a.dependents as real;
    assert Ratio(b) * y == b.dependents as real;
    assert Ratio(a) * (x * y) == (Ratio(a) * x) * y;
    assert Ratio(b) * (x * y) == (Ratio(b) * y) * x;
  }

  lemma ScaleCompares(x: real, y: real, s: real)
    requires s > 0.0
    ensures x < y <==> x * s < y * s
    ensures x == y <==> x * s == y * s
  {
  }

  /** At least one of the products is below the limit, or they are equal anyway. */
  predicate Sharp(a: Weighted, b: Weighted) {
    || a.dependents * b.step < MAX_USIZE
    || b.dependents * a.step < MAX_USIZE
    || a.dependents * b.step == b.dependents * a.step
  }

  /** The comparison is that of the ratios exactly when the products are equal or one stays below the limit. */
  lemma CmpComparesRatios(a: Weighted, b: Weighted)
    requires a.step > 0 && b.step > 0
    ensures Cmp(a, b) == CompareReal(Ratio(a), Ratio(b)) <==> Sharp(a, b)
  {
    CrossMultiply(a, b);
  }

  /** Every two waiting jobs compare as their ratios. */
  ghost predicate AllSharp(open: seq<Weighted>) {
    && (forall i :: 0 <= i < |open| ==> open[i].step > 0)
    && forall i, k :: 0 <= i < |open| && 0 <= k < |open| ==> Sharp(open[i], open[k])
  }

  /** A total preorder: comparing both ways is consistent, and the order is transitive. */
  predicate Orderly(open: seq<Weighted>) {
    forall i, k, m :: 0 <= i < |open| && 0 <= k < |open| && 0 <= m < |open| ==>
      Transitive(open[i], open[k], open[m])
  }

  predicate Transitive(a: Weighted, b: Weighted, c: Weighted) {
    Cmp(a, b) != Greater && Cmp(b, c) != Greater ==> Cmp(a, c) != Greater
  }

  lemma CmpIsConsistent(a: Weighted, b: Weighted)
    ensures Cmp(a, b) == Less <==> Cmp(b, a) == Greater
    ensures Cmp(a, b) == Equal <==> Cmp(b, a) == Equal
    ensures SameWeight(a, b) ==> Cmp(a, b) == Equal
  {
  }

  /** Equality ignores the job; it is finer than comparing equal: ratios that agree do not make weights equal. */
  lemma EqualityIsFiner(a: Weighted, k: nat)
    requires a.step > 0 && k > 1
    ensures forall j :: SameWeight(a, a.(job := j))
    ensures var b := Weighted(a.job, k * a.dependents, k * a.step);
            Cmp(a, b) == Equal && !SameWeight(a, b) && !SameWeight(a, a.(dependents := a.dependents + k))
  {
    var b := Weighted(a.job, k * a.dependents, k * a.step);
    assert a.dependents * b.step == b.dependents * a.step;
    assert k * a.step > a.step;
  }

  lemma SharpIsOrderly(open: seq<Weighted>)
    requires AllSharp(open)
    ensures Orderly(open)
  {
    forall i, k, m | 0 <= i < |open| && 0 <= k < |open| && 0 <= m < |open|
      ensures Transitive(open[i], open[k], open[m])
    {
      var a, b, c := open[i], open[k], open[m];
      assert Sharp(a, b) && Sharp(b, c) && Sharp(a, c);
      CmpComparesRatios(a, b);
      CmpComparesRatios(b, c);
      CmpComparesRatios(a, c);
    }
  }

  /** `a` does not rank above `b`: its product is no greater, or saturation hides that it is. */
  predicate NotAbove(a: Weighted, b: Weighted) {
    || a.dependents * b.step <= b.dependents * a.step
    || (a.dependents * b.step >= MAX_USIZE && b.dependents * a.step >= MAX_USIZE)
  }

  /** `a` does rank above `c`, and `b` conceals it. */
  predicate Conceals(a: Weighted, b: Weighted, c: Weighted) {
    && c.dependents * a.step < MAX_USIZE && c.dependents * a.step < a.dependents * c.step
    && NotAbove(a, b) && NotAbove(b, c)
  }

  /** Exactly the heaps in which no job conceals the order of two others are ordered. */
  lemma OrderlyExactly(open: seq<Weighted>)
    ensures Orderly(open) <==>
            forall i, k, m :: 0 <= i < |open| && 0 <= k < |open| && 0 <= m < |open| ==>
                                !Conceals(open[i], open[k], open[m])
  {
    forall i, k, m | 0 <= i < |open| && 0 <= k < |open| && 0 <= m < |open|
      ensures Transitive(open[i], open[k], open[m]) <==> !Conceals(open[i], open[k], open[m])
    {
      TransitiveExactly(open[i], open[k], open[m]);
    }
  }

  lemma NotAboveExactly(a: Weighted, b: Weighted)
    ensures Cmp(a, b) != Greater <==> NotAbove(a, b)
  {
  }

  lemma TransitiveExactly(a: Weighted, b: Weighted, c: Weighted)
    ensures Transitive(a, b, c) <==> !Conceals(a, b, c)
  {
    NotAboveExactly(a, b);
    NotAboveExactly(b, c);
    NotAboveExactly(a, c);
  }

  /** A job conceals nothing unless its products with one of the two both reach the limit and differ. */
  lemma ConcealingBlurs(a: Weighted, b: Weighted, c: Weighted)
    requires a.step > 0 && b.step > 0 && c.step > 0 && Conceals(a, b, c)
    ensures !Sharp(a, b) || !Sharp(b, c)
  {
    CrossMultiply(a, b);
    CrossMultiply(b, c);
    CrossMultiply(a, c);
  }

  /** Bounds a caller can check: few enough dependents for the number of steps taken. */
  lemma SmallFlowsAreSharp(open: seq<Weighted>, dependents: nat, steps: nat)
    requires forall i :: 0 <= i < |open| ==> open[i].dependents <= dependents && 0 < open[i].step <= steps
    requires dependents * steps <= MAX_USIZE
    ensures AllSharp(open)
  {
    forall i, k | 0 <= i < |open| && 0 <= k < |open| ensures Sharp(open[i], open[k]) {
      MulUp(open[i].dependents, dependents, open[k].step, steps);
      MulUp(open[k].dependents, dependents, open[i].step, steps);
    }
  }

  lemma MulUp(a: nat, b: nat, c: nat, d: nat)
    requires a <= b && c <= d
    ensures a * c <= b * d
  {
    assert a * c <= a * d <= b * d;
  }

  /** Three jobs with at most two dependents whose steps lie far apart: the first compares equal to the second,
      which compares below the third, which compares below the first. */
  lemma SaturationBreaksTransitivity()
    ensures var a, b, c := Weighted(0, 3, 0x8000_0000_0000_0000), Weighted(1, 2, MAX_USIZE),
                           Weighted(2, 1, 0x7FFF_FFFF_FFFF_FFFF);
            Cmp(a, b) == Equal && Cmp(b, c) == Less && Cmp(c, a) == Less && !Orderly([a, b, c])
  {
    var a, b, c := Weighted(0, 3, 0x8000_0000_0000_0000), Weighted(1, 2, MAX_USIZE),
                   Weighted(2, 1, 0x7FFF_FFFF_FFFF_FFFF);
    var open := [a, b, c];
    assert !Transitive(open[0], open[1], open[2]);
  }

  /** Saturated or not, more dependents or a longer wait never lower a job's rank. */
  lemma WaitingNeverHurts(a: Weighted, b: Weighted)
    requires a.dependents >= b.dependents && a.step <= b.step
    ensures Cmp(a, b) != Less
  {
    MulUp(b.dependents, a.dependents, a.step, b.step);
  }

  // ---------------------------------------------------------------------------------------------
  // The heap
  // ---------------------------------------------------------------------------------------------

  /** Nothing waiting outranks `w`. */
  predicate Outranked(open: seq<Weighted>, w: Weighted) {
    forall i :: 0 <= i < |open| ==> Cmp(open[i], w) != Greater
  }

  lemma {:induction false} SomeMaximum(open: seq<Weighted>) returns (k: nat)
    requires Orderly(open) && open != []
    ensures k < |open| && Outranked(open, open[k])
  {
    var n := |open| - 1;
    if n == 0 {
      return 0;
    }
    var rest := open[..n];
    assert Orderly(rest);
    k := SomeMaximum(rest);
    CmpIsConsistent(open[n], open[k]);
    if Cmp(open[n], open[k]) == Greater {
      forall i | 0 <= i < |open| ensures Cmp(open[i], open[n]) != Greater {
        if i < n {
          assert rest[i] == open[i];
          assert Transitive(open[i], open[k], open[n]);
        }
      }
      k := n;
    } else {
      forall i | 0 <= i < |open| ensures Cmp(open[i], open[k]) != Greater {
        if i < n {
          assert rest[i] == open[i];
        }
      }
    }
  }

  predicate Poppable(open: seq<Weighted>, k: nat) {
    k < |open| && (Orderly(open) ==> Outranked(open, open[k]))
  }

  function RemoveAt(open: seq<Weighted>, k: nat): (rest: seq<Weighted>)
    requires k < |open|
    ensures multiset(open) == multiset(rest) + multiset{open[k]}
  {
    assert open == open[..k] + [open[k]] + open[k + 1..];
    open[..k] + open[k + 1..]
  }

  /** The positions a pop may choose from. */
  function Tops(open: seq<Weighted>): (tops: set<nat>)
    requires open != []
    ensures tops != {} && forall k :: k in tops ==> Poppable(open, k)
  {
    var tops := set k: nat | k < |open| && Poppable(open, k);
    assert tops != {} by {
      if Orderly(open) {
        var k := SomeMaximum(open);
        assert k in tops;
      } else {
        assert 0 in tops;
      }
    }
    tops
  }

  /** Every job drained ranks at least as high as every job left, and as every job drained after it. */
  predicate TopFirst(batch: seq<Weighted>, rest: seq<Weighted>) {
    && (forall i, k :: 0 <= i < |batch| && 0 <= k < |rest| ==> Cmp(rest[k], batch[i]) != Greater)
    && (forall i, k :: 0 <= i < k < |batch| ==> Cmp(batch[k], batch[i]) != Greater)
  }

  lemma MembersStay(open: seq<Weighted>, part: seq<Weighted>, i: nat)
    requires multiset(part) <= multiset(open) && i < |part|
    ensures exists k :: 0 <= k < |open| && open[k] == part[i]
  {
    assert part[i] in multiset(part);
    assert part[i] in multiset(open);
  }

  lemma OrderlySubset(open: seq<Weighted>, part: seq<Weighted>)
    requires Orderly(open) && multiset(part) <= multiset(open)
    ensures Orderly(part)
  {
    forall i, k, m | 0 <= i < |part| && 0 <= k < |part| && 0 <= m < |part|
      ensures Transitive(part[i], part[k], part[m])
    {
      MembersStay(open, part, i);
      MembersStay(open, part, k);
      MembersStay(open, part, m);
    }
  }

  lemma OutrankedSubset(open: seq<Weighted>, part: seq<Weighted>, w: Weighted)
    requires Outranked(open, w) && multiset(part) <= multiset(open)
    ensures Outranked(part, w)
  {
    forall i | 0 <= i < |part| ensures Cmp(part[i], w) != Greater {
      MembersStay(open, part, i);
    }
  }

  method Top(open: seq<Weighted>) returns (k: nat)
    requires open != []
    ensures k < |open| && (Orderly(open) ==> Outranked(open, open[k]))
  {
    var tops := Tops(open);
    k :| k in tops;
  }

  /** `BinaryHeap::pop`: a maximum, with ties broken in any way, whenever the comparison is the total preorder
      a heap needs; otherwise any job. */
  method Pop(open: seq<Weighted>) returns (w: Weighted, rest: seq<Weighted>)
    requires open != []
    ensures multiset(open) == multiset(rest) + multiset{w} && |rest| == |open| - 1
    ensures Orderly(open) ==> Outranked(open, w)
  {
    var k := Top(open);
    w, rest := open[k], RemoveAt(open, k);
  }

  lemma PopKeepsTopFirst(open: seq<Weighted>, batch: seq<Weighted>, w: Weighted, left: seq<Weighted>)
    requires TopFirst(batch, open) && Outranked(open, w) && multiset(open) == multiset(left) + multiset{w}
    ensures TopFirst(batch + [w], left)
  {
    OutrankedSubset(open, left, w);
    assert w in multiset(open);
    forall i, k | 0 <= i < |batch| && 0 <= k < |left| ensures Cmp(left[k], batch[i]) != Greater {
      MembersStay(open, left, k);
    }
  }

  /** Takes the best `n` waiting jobs out of the heap, popping them one at a time. */
  method DrainBatch(open: seq<Weighted>, n: nat) returns (batch: seq<Weighted>, rest: seq<Weighted>)
    requires n <= |open|
    ensures |batch| == n && multiset(open) == multiset(batch) + multiset(rest)
    ensures Orderly(open) ==> TopFirst(batch, rest)
  {
    batch, rest := [], open;
    while |batch| < n
      invariant |batch| <= n && |batch| + |rest| == |open|
      invariant multiset(open) == multiset(batch) + multiset(rest)
      invariant Orderly(open) ==> TopFirst(batch, rest)
    {
      var w, left := Pop(rest);
      if Orderly(open) {
        OrderlySubset(open, rest);
        PopKeepsTopFirst(rest, batch, w, left);
      }
      batch, rest := batch + [w], left;
    }
  }

  /** No job left waiting has a greater ratio than a dispatched one, whatever else saturates, if their own
      comparison is sharp and the heap is orderly. */
  lemma BatchRanksByRatio(open: seq<Weighted>, batch: seq<Weighted>, rest: seq<Weighted>, i: nat, k: nat)
    requires multiset(open) == multiset(batch) + multiset(rest) && (Orderly(open) ==> TopFirst(batch, rest))
    requires i < |batch| && k < |rest| && batch[i].step > 0 && rest[k].step > 0
    ensures Orderly(open) && Sharp(rest[k], batch[i]) ==> Ratio(rest[k]) <= Ratio(batch[i])
    ensures AllSharp(open) ==> Ratio(rest[k]) <= Ratio(batch[i])
  {
    CmpComparesRatios(rest[k], batch[i]);
    if AllSharp(open) {
      SharpIsOrderly(open);
      MembersStay(open, batch, i);
      MembersStay(open, rest, k);
    }
  }

  /** The step counter: it starts at 1 and wraps to 1, so no step is ever 0. */
  function NextStep(step: nat): (next: nat)
    requires 0 < step <= MAX_USIZE
    ensures 0 < next <= MAX_USIZE && next % MAX_USIZE == (step + 1) % MAX_USIZE
    ensures next > step || (step == MAX_USIZE && next == 1)
  {
    if step + 1 > MAX_USIZE then 1 else step + 1
  }
}
