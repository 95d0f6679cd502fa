/**
  The layering of src/job_ordering/stepped.rs: a lexicographic topological sort of the reduced graph,
  then a greedy assignment of indices to levels of width `w`, dependencies first.
 */
module Layering {
  import opened Graphs
  import opened Promises
  import opened Sequences
  import opened Wrappers

  // ---------------------------------------------------------------------------------------------
  // Age keys
  // ---------------------------------------------------------------------------------------------

  /** The order of vectors: element by element, a proper prefix being smaller. */
  predicate LexLe(a: seq<nat>, b: seq<nat>) {
    a == [] || (b != [] && (a[0] < b[0] || (a[0] == b[0] && LexLe(a[1..], b[1..]))))
  }

  lemma {:induction false} LexTotal(a: seq<nat>, b: seq<nat>)
    ensures LexLe(a, b) || LexLe(b, a)
    ensures LexLe(a, a)
    ensures LexLe(a, b) && LexLe(b, a) ==> a == b
  {
    if a != [] && b != [] && a[0] == b[0] {
      LexTotal(a[1..], b[1..]);
      assert a == [a[0]] + a[1..] && b == [b[0]] + b[1..];
    }
    if a != [] {
      LexTotal(a[1..], a[1..]);
    }
  }

  lemma {:induction false} LexTransitive(a: seq<nat>, b: seq<nat>, c: seq<nat>)
    requires LexLe(a, b) && LexLe(b, c)
    ensures LexLe(a, c)
  {
    if a != [] && a[0] == b[0] && b[0] == c[0] {
      LexTransitive(a[1..], b[1..], c[1..]);
    }
  }

  /** `a` properly extends `b`, or is the greater one where they first differ. */
  ghost predicate Exceeds(a: seq<nat>, b: seq<nat>) {
    b < a || exists k: nat :: DifferFirst(a, b, k) && a[k] > b[k]
  }

  predicate DifferFirst(a: seq<nat>, b: seq<nat>, k: nat) {
    k < |a| && k < |b| && a[..k] == b[..k] && a[k] != b[k]
  }

  lemma {:induction false} LexWhereTheyDiffer(a: seq<nat>, b: seq<nat>, k: nat)
    requires DifferFirst(a, b, k)
    ensures LexLe(a, b) <==> a[k] < b[k]
    decreases k
  {
    if k > 0 {
      assert a[0] == a[..k][0] && b[0] == b[..k][0];
      assert a[1..][..k - 1] == a[..k][1..] && b[1..][..k - 1] == b[..k][1..];
      LexWhereTheyDiffer(a[1..], b[1..], k - 1);
    }
  }

  lemma {:induction false} LexOfPrefix(a: seq<nat>, b: seq<nat>)
    requires a <= b
    ensures LexLe(a, b) && (a != b ==> !LexLe(b, a))
  {
    if a != [] {
      assert a[1..] <= b[1..] && (a[1..] == b[1..] ==> a == [a[0]] + b[1..] == b);
      LexOfPrefix(a[1..], b[1..]);
    }
  }

  lemma {:induction false} PrefixOrDiffer(a: seq<nat>, b: seq<nat>) returns (k: nat)
    ensures a <= b || b <= a || DifferFirst(a, b, k)
  {
    if a != [] && b != [] && a[0] == b[0] {
      k := PrefixOrDiffer(a[1..], b[1..]);
      assert a == [a[0]] + a[1..] && b == [a[0]] + b[1..];
      k := k + 1;
      if DifferFirst(a[1..], b[1..], k - 1) {
        assert a[..k] == [a[0]] + a[1..][..k - 1] && b[..k] == [a[0]] + b[1..][..k - 1];
      }
    } else {
      k := 0;
    }
  }

  lemma SameBefore(a: seq<nat>, b: seq<nat>, k: nat, m: nat)
    requires DifferFirst(a, b, m) && k < m
    ensures a[k] == b[k]
  {
    assert a[..m][k] == b[..m][k];
  }

  lemma DifferOnce(a: seq<nat>, b: seq<nat>, k: nat, m: nat)
    requires DifferFirst(a, b, k) && DifferFirst(a, b, m)
    ensures k == m
  {
    if k < m {
      SameBefore(a, b, k, m);
    } else if m < k {
      SameBefore(a, b, m, k);
    }
  }

  /** The order of vectors by where they first differ. */
  lemma LexExactly(a: seq<nat>, b: seq<nat>)
    ensures LexLe(a, b) <==> !Exceeds(a, b)
    ensures LexLe(a, b) <==> a <= b || exists k: nat :: DifferFirst(a, b, k) && a[k] < b[k]
  {
    var k := PrefixOrDiffer(a, b);
    if DifferFirst(a, b, k) {
      LexWhereTheyDiffer(a, b, k);
      forall m: nat | DifferFirst(a, b, m) ensures m == k {
        DifferOnce(a, b, k, m);
      }
      assert !(a <= b) && !(b <= a);
    } else {
      if a <= b {
        LexOfPrefix(a, b);
      } else {
        LexOfPrefix(b, a);
      }
      forall m: nat ensures !DifferFirst(a, b, m) {
        assert m < |a| && m < |b| ==> a[m] == b[m];
      }
    }
  }

  predicate Ascending(ages: seq<nat>) {
    forall i, j :: 0 <= i < j < |ages| ==> ages[i] < ages[j]
  }

  lemma {:induction false} AscendingIsUnique(a: seq<nat>, b: seq<nat>)
    requires Ascending(a) && Ascending(b) && forall x :: x in a <==> x in b
    ensures a == b
    decreases |a|
  {
    if a != [] && b != [] {
      var x, y := a[|a| - 1], b[|b| - 1];
      assert x in b && y in a;
      assert x == y;
      var restA, restB := a[..|a| - 1], b[..|b| - 1];
      forall z: nat ensures z in restA <==> z in restB {
        assert z in restA <==> z in a && z != x;
        assert z in restB <==> z in b && z != y;
      }
      AscendingIsUnique(restA, restB);
      assert a == restA + [x] && b == restB + [y];
    } else {
      SameElementsBothEmpty(a, b);
    }
  }

  lemma SameElementsBothEmpty(a: seq<nat>, b: seq<nat>)
    requires (a == [] || b == []) && forall x :: x in a <==> x in b
    ensures a == [] && b == []
  {
    SomethingIn(a);
    SomethingIn(b);
  }

  lemma SomethingIn(s: seq<nat>)
    ensures s != [] ==> exists x :: x in s
  {
    if s != [] {
      assert s[0] in s;
    }
  }

  /** `ages` lists the positions in `placed`, ascending, of everything with an edge into `node`. */
  ghost predicate IncomingPositions(adj: Adjacency, placed: seq<nat>, node: nat, ages: seq<nat>)
    requires Placeable(adj, placed)
  {
    Ascending(ages) && forall p: nat :: p in ages <==> p < |placed| && node in adj[placed[p]]
  }

  /** The positions in `ordering`, ascending, of the indices with an edge into `node`. */
  function Ages(adj: Adjacency, ordering: seq<nat>, node: nat): seq<nat>
    requires Placeable(adj, ordering)
  {
    if ordering == [] then []
    else
      var p := |ordering| - 1;
      Ages(adj, ordering[..p], node) + if node in adj[ordering[p]] then [p] else []
  }

  lemma {:induction false} AgesAreIncomingPositions(adj: Adjacency, ordering: seq<nat>, node: nat)
    requires Placeable(adj, ordering)
    ensures IncomingPositions(adj, ordering, node, Ages(adj, ordering, node))
  {
    if ordering != [] {
      var last := |ordering| - 1;
      AgesAreIncomingPositions(adj, ordering[..last], node);
      var earlier, ages := Ages(adj, ordering[..last], node), Ages(adj, ordering, node);
      forall i, j | 0 <= i < j < |ages| ensures ages[i] < ages[j] {
        assert ages[i] == earlier[i] && earlier[i] in earlier;
      }
    }
  }

  // ---------------------------------------------------------------------------------------------
  // The sort
  // ---------------------------------------------------------------------------------------------

  /** Not yet placed, with every index that has an edge into it placed. */
  ghost predicate Contends(adj: Adjacency, placed: seq<nat>, node: nat) {
    node < |adj| && node !in placed && forall a :: 0 <= a < |adj| && node in adj[a] ==> a in placed
  }

  ghost predicate Placeable(adj: Adjacency, placed: seq<nat>) {
    forall i :: 0 <= i < |placed| ==> placed[i] < |adj|
  }

  /** A contender whose age key no other contender's exceeds. */
  ghost predicate BestContender(adj: Adjacency, placed: seq<nat>, node: nat)
    requires Placeable(adj, placed)
  {
    && Contends(adj, placed, node)
    && forall c :: Contends(adj, placed, c) ==> LexLe(Ages(adj, placed, c), Ages(adj, placed, node))
  }

  ghost predicate PickedWell(adj: Adjacency, ordering: seq<nat>)
    requires Placeable(adj, ordering)
  {
    forall k :: 0 <= k < |ordering| ==> BestContender(adj, ordering[..k], ordering[k])
  }

  /** No index that could have been placed instead has greater incoming positions than the one placed: wherever they
      first differ, or one list ends, the one placed has the later position. */
  ghost predicate PickedLatest(adj: Adjacency, ordering: seq<nat>)
    requires Placeable(adj, ordering)
  {
    forall k: nat, c: nat :: k < |ordering| && Contends(adj, ordering[..k], c) ==>
                               NotLater(adj, ordering[..k], c, ordering[k])
  }

  ghost predicate NotLater(adj: Adjacency, placed: seq<nat>, c: nat, node: nat)
    requires Placeable(adj, placed)
  {
    forall a, b :: IncomingPositions(adj, placed, c, a) && IncomingPositions(adj, placed, node, b) ==> !Exceeds(a, b)
  }

  lemma AgesAreUnique(adj: Adjacency, placed: seq<nat>, node: nat, ages: seq<nat>)
    requires Placeable(adj, placed) && IncomingPositions(adj, placed, node, ages)
    ensures ages == Ages(adj, placed, node)
  {
    AgesAreIncomingPositions(adj, placed, node);
    AscendingIsUnique(ages, Ages(adj, placed, node));
  }

  lemma PickedWellIsLatest(adj: Adjacency, ordering: seq<nat>)
    requires Placeable(adj, ordering) && PickedWell(adj, ordering)
    ensures PickedLatest(adj, ordering)
  {
    forall k: nat, c: nat | k < |ordering| && Contends(adj, ordering[..k], c)
      ensures NotLater(adj, ordering[..k], c, ordering[k])
    {
      var placed, node := ordering[..k], ordering[k];
      assert BestContender(adj, placed, node);
      forall a, b | IncomingPositions(adj, placed, c, a) && IncomingPositions(adj, placed, node, b)
        ensures !Exceeds(a, b)
      {
        AgesAreUnique(adj, placed, c, a);
        AgesAreUnique(adj, placed, node, b);
        LexExactly(a, b);
      }
    }
  }

  /** A permutation of the indices in which every edge goes forward. */
  ghost predicate SortOf(adj: Adjacency, ordering: seq<nat>) {
    && Placeable(adj, ordering) && Distinct(ordering) && |ordering| == |adj|
    && (forall a: nat :: a < |adj| ==> a in ordering)
    && forall p, q :: 0 <= p < |ordering| && 0 <= q < |ordering| && ordering[q] in adj[ordering[p]] ==> p < q
  }

  /** The smallest open index is a contender, so there always is one. */
  lemma SomeoneContends(adj: Adjacency, placed: seq<nat>, open: set<nat>) returns (least: nat)
    requires Dag(adj) && open != {}
    requires forall a: nat :: a < |adj| <==> a in open || a in placed
    requires forall a :: a in open ==> a !in placed
    ensures least in open && Contends(adj, placed, least)
  {
    least :| least in open;
    while exists a :: a in open && a < least
      invariant least in open
      decreases least
    {
      var a :| a in open && a < least;
      least := a;
    }
    forall a | 0 <= a < |adj| && least in adj[a] ensures a in placed {
      assert a < least;
    }
  }

  lemma {:induction false} SomeoneIsBest(adj: Adjacency, placed: seq<nat>, contenders: seq<nat>) returns (best: nat)
    requires Placeable(adj, placed) && contenders != []
    ensures best in contenders
    ensures forall c :: c in contenders ==> LexLe(Ages(adj, placed, c), Ages(adj, placed, best))
  {
    best := contenders[0];
    LexTotal(Ages(adj, placed, best), Ages(adj, placed, best));
    if |contenders| > 1 {
      var other := SomeoneIsBest(adj, placed, contenders[1..]);
      LexTotal(Ages(adj, placed, best), Ages(adj, placed, other));
      if LexLe(Ages(adj, placed, best), Ages(adj, placed, other)) {
        best := other;
      } else {
        forall c | c in contenders[1..] ensures LexLe(Ages(adj, placed, c), Ages(adj, placed, best)) {
          LexTransitive(Ages(adj, placed, c), Ages(adj, placed, other), Ages(adj, placed, best));
        }
      }
      assert forall c :: c in contenders ==> c == contenders[0] || c in contenders[1..];
    }
  }

  /** Whether every edge into `node` comes from the closed set. */
  method AllIncomingClosed(adj: Adjacency, closed: set<nat>, node: nat) returns (all: bool)
    ensures all <==> forall a :: 0 <= a < |adj| && node in adj[a] ==> a in closed
  {
    all := true;
    var a := 0;
    while a < |adj| && all
      invariant 0 <= a <= |adj|
      invariant all <==> forall b :: 0 <= b < a && node in adj[b] ==> b in closed
    {
      if node in adj[a] && a !in closed {
        all := false;
      }
      a := a + 1;
    }
  }

  method Contenders(adj: Adjacency, closed: set<nat>, open: set<nat>) returns (contenders: seq<nat>)
    ensures forall n :: n in contenders <==>
              n in open && forall a :: 0 <= a < |adj| && n in adj[a] ==> a in closed
  {
    contenders := [];
    var rest := open;
    while rest != {}
      invariant rest <= open
      invariant forall n :: n in contenders <==>
                  n in open && n !in rest && forall a :: 0 <= a < |adj| && n in adj[a] ==> a in closed
    {
      var node :| node in rest;
      var all := AllIncomingClosed(adj, closed, node);
      if all {
        contenders := contenders + [node];
      }
      rest := rest - {node};
    }
  }

  /** The sort's loop: what is placed was placed well, and open and closed indices split the graph. */
  ghost predicate Sorting(adj: Adjacency, ordering: seq<nat>, closed: set<nat>, open: set<nat>) {
    && Placeable(adj, ordering) && Distinct(ordering) && PickedWell(adj, ordering)
    && (forall a :: a in closed <==> a in ordering)
    && |closed| == |ordering|
    && (forall a: nat :: a < |adj| <==> a in open || a in closed)
    && open !! closed
  }

  /** The first contender after sorting by descending age key; which of several equal ones is left open. */
  method PickFirst(adj: Adjacency, ordering: seq<nat>, closed: set<nat>, open: set<nat>) returns (first: nat)
    requires Dag(adj) && Sorting(adj, ordering, closed, open) && open != {}
    ensures first in open && BestContender(adj, ordering, first)
  {
    var contenders := Contenders(adj, closed, open);
    assert forall n :: n in contenders <==> Contends(adj, ordering, n);
    ghost var someone := SomeoneContends(adj, ordering, open);
    ghost var best := SomeoneIsBest(adj, ordering, contenders);
    first :| first in contenders
             && forall c :: c in contenders ==> LexLe(Ages(adj, ordering, c), Ages(adj, ordering, first));
  }

  lemma PlaceKeepsSorting(adj: Adjacency, ordering: seq<nat>, closed: set<nat>, open: set<nat>, first: nat)
    requires Sorting(adj, ordering, closed, open) && first in open && BestContender(adj, ordering, first)
    ensures Sorting(adj, ordering + [first], closed + {first}, open - {first})
  {
    Extend(adj, ordering, first);
  }

  /** Terminates, always finds a contender, and each pick is a best one, whatever the tie-breaks. */
  method LexicoTopologicalSort(adj: Adjacency) returns (ordering: seq<nat>)
    requires Dag(adj)
    ensures SortOf(adj, ordering) && PickedWell(adj, ordering) && PickedLatest(adj, ordering)
  {
    ordering := [];
    var closed: set<nat> := {};
    var open := Indices(|adj|);
    while open != {}
      invariant Sorting(adj, ordering, closed, open)
      decreases open
    {
      var first := PickFirst(adj, ordering, closed, open);
      PlaceKeepsSorting(adj, ordering, closed, open, first);
      open := open - {first};
      closed := closed + {first};
      ordering := ordering + [first];
    }
    SortingDone(adj, ordering, closed);
  }

  lemma SortingDone(adj: Adjacency, ordering: seq<nat>, closed: set<nat>)
    requires Sorting(adj, ordering, closed, {})
    ensures SortOf(adj, ordering) && PickedWell(adj, ordering) && PickedLatest(adj, ordering)
  {
    assert closed == Indices(|adj|);
    PickedWellSorts(adj, ordering);
    PickedWellIsLatest(adj, ordering);
  }

  lemma Extend(adj: Adjacency, ordering: seq<nat>, next: nat)
    requires Placeable(adj, ordering) && Distinct(ordering) && PickedWell(adj, ordering)
    requires BestContender(adj, ordering, next)
    ensures var longer := ordering + [next];
            Placeable(adj, longer) && Distinct(longer) && PickedWell(adj, longer)
  {
    var longer := ordering + [next];
    forall k | 0 <= k < |longer| ensures BestContender(adj, longer[..k], longer[k]) {
      if k < |ordering| {
        assert longer[..k] == ordering[..k];
      } else {
        assert longer[..k] == ordering;
      }
    }
  }

  /** Placing contenders only, until all are placed, is a topological sort. */
  lemma PickedWellSorts(adj: Adjacency, ordering: seq<nat>)
    requires Placeable(adj, ordering) && Distinct(ordering) && PickedWell(adj, ordering)
    requires |ordering| == |adj| && forall a: nat :: a < |adj| ==> a in ordering
    ensures SortOf(adj, ordering)
  {
    forall p, q | 0 <= p < |ordering| && 0 <= q < |ordering| && ordering[q] in adj[ordering[p]]
      ensures p < q
    {
      assert BestContender(adj, ordering[..q], ordering[q]);
      assert ordering[p] in ordering[..q];
      var p' :| 0 <= p' < q && ordering[..q][p'] == ordering[p];
      assert ordering[p'] == ordering[p];
    }
  }

  /** `list.node_indices()`. */
  function Indices(n: nat): (s: set<nat>)
    ensures |s| == n && forall a: nat :: a in s <==> a < n
  {
    if n == 0 then {} else Indices(n - 1) + {n - 1}
  }

  // ---------------------------------------------------------------------------------------------
  // Levels
  // ---------------------------------------------------------------------------------------------

  type Levels = map<nat, set<nat>>

  /** The levels present are 0, 1, ..., `height - 1`, and `levelOf` says where each index is. */
  ghost predicate Represents(levels: Levels, levelOf: map<nat, nat>, height: nat) {
    && (forall l: nat :: l in levels <==> l < height)
    && (forall v :: v in levelOf ==> levelOf[v] < height && v in levels[levelOf[v]])
    && forall l, v :: l in levels && v in levels[l] ==> v in levelOf && levelOf[v] == l
  }

  predicate Open(levels: Levels, w: nat, l: nat) {
    l in levels && |levels[l]| < w
  }

  predicate Full(levels: Levels, w: nat, l: nat) {
    w > 0 && l in levels && |levels[l]| >= w
  }

  /** No level is empty or too wide.  Width 0 means no bound: no level present has that size. */
  predicate WidthKept(levels: Levels, w: nat) {
    forall l :: l in levels ==> levels[l] != {} && (w > 0 ==> |levels[l]| <= w)
  }

  /** Dependencies are strictly below. */
  ghost predicate DependenciesBelow(adj: Adjacency, levelOf: map<nat, nat>) {
    && (forall v :: v in levelOf ==> v < |adj|)
    && forall v, d :: v in levelOf && d in adj[v] ==> d in levelOf && levelOf[d] < levelOf[v]
  }

  /** A level an index was placed above, and that is not full, is no higher than some dependency of it. */
  ghost predicate SkipsSupported(adj: Adjacency, w: nat, levels: Levels, levelOf: map<nat, nat>) {
    forall v, l: nat :: v in levelOf && l < levelOf[v] && Open(levels, w, l) ==> Supported(adj, levelOf, v, l)
  }

  /** What the greedy assignment guarantees. */
  ghost predicate Greedy(adj: Adjacency, w: nat, levels: Levels, levelOf: map<nat, nat>) {
    && WidthKept(levels, w)
    && DependenciesBelow(adj, levelOf)
    && SkipsSupported(adj, w, levels, levelOf)
  }

  ghost predicate Supported(adj: Adjacency, levelOf: map<nat, nat>, v: nat, l: nat) {
    v < |adj| && exists d :: d in adj[v] && d in levelOf && l <= levelOf[d]
  }

  /** The highest level of a target, if there are any. */
  method MaxLevel(levels: Levels, targets: set<nat>, ghost levelOf: map<nat, nat>, ghost height: nat)
    returns (r: Option<nat>)
    requires Represents(levels, levelOf, height)
    requires forall d :: d in targets ==> d in levelOf
    ensures r.None? <==> targets == {}
    ensures r.Some? ==> exists d :: d in targets && levelOf[d] == r.value
    ensures forall d :: d in targets ==> levelOf[d] <= r.value
  {
    r := None;
    var rest := targets;
    while rest != {}
      invariant rest <= targets
      invariant r.None? <==> targets == rest
      invariant r.Some? ==> exists d :: d in targets && levelOf[d] == r.value
      invariant forall d :: d in targets && d !in rest ==> r.Some? && levelOf[d] <= r.value
    {
      var d :| d in rest;
      assert d in levels[levelOf[d]];
      var level :| level in levels && d in levels[level];
      if r.None? || r.value < level {
        r := Some(level);
      }
      rest := rest - {d};
    }
  }

  /** The lowest level that is not full, or 0. */
  method LowestOpen(levels: Levels, w: nat) returns (r: nat)
    ensures Open(levels, w, r) || (r == 0 && forall l :: l in levels ==> !Open(levels, w, l))
    ensures forall l: nat :: l < r ==> !Open(levels, w, l)
  {
    var best: Option<nat> := None;
    var rest := levels.Keys;
    while rest != {}
      invariant rest <= levels.Keys
      invariant best.Some? ==> Open(levels, w, best.value)
      invariant forall l :: l in levels && l !in rest && Open(levels, w, l) ==> best.Some? && best.value <= l
    {
      var l :| l in rest;
      if |levels[l]| < w && (best.None? || l < best.value) {
        best := Some(l);
      }
      rest := rest - {l};
    }
    r := if best.Some? then best.value else 0;
  }

  function Add(levels: Levels, l: nat, v: nat): Levels {
    levels[l := (if l in levels then levels[l] else {}) + {v}]
  }

  /** Where the next index goes: no level below it may take the index unless a dependency is as high. */
  ghost predicate Fits(adj: Adjacency, w: nat, levels: Levels, levelOf: map<nat, nat>, height: nat, v: nat,
                       level: nat) {
    && v < |adj| && v !in levelOf && level <= height
    && (level in levels && w > 0 ==> |levels[level]| < w)
    && (forall d :: d in adj[v] ==> d in levelOf && levelOf[d] < level)
    && forall l: nat :: l < level ==> Full(levels, w, l) || Supported(adj, levelOf, v, l)
  }

  lemma AddKeepsRepresents(levels: Levels, levelOf: map<nat, nat>, height: nat, v: nat, level: nat)
    requires Represents(levels, levelOf, height) && v !in levelOf && level <= height
    ensures Represents(Add(levels, level, v), levelOf[v := level], if level == height then height + 1 else height)
  {
  }

  /** Adding an index opens no level. */
  lemma AddOpensNothing(levels: Levels, w: nat, level: nat, v: nat, l: nat)
    requires l in levels && Open(Add(levels, level, v), w, l)
    ensures Open(levels, w, l)
  {
    if l == level {
      assert levels[l] <= levels[l] + {v};
      SubsetCount(levels[l], levels[l] + {v});
    }
  }

  lemma SubsetCount(a: set<nat>, b: set<nat>)
    requires a <= b
    ensures |a| <= |b|
  {
    assert b == a + (b - a);
  }

  lemma SupportStays(adj: Adjacency, levelOf: map<nat, nat>, v: nat, level: nat, u: nat, l: nat)
    requires Supported(adj, levelOf, u, l) && v !in levelOf
    ensures Supported(adj, levelOf[v := level], u, l)
  {
    var d :| d in adj[u] && d in levelOf && l <= levelOf[d];
    assert d in levelOf[v := level] && l <= levelOf[v := level][d];
  }

  lemma AddKeepsSkipsSupported(adj: Adjacency, w: nat, levels: Levels, levelOf: map<nat, nat>, height: nat, v: nat,
                               level: nat)
    requires Represents(levels, levelOf, height) && SkipsSupported(adj, w, levels, levelOf)
    requires Fits(adj, w, levels, levelOf, height, v, level)
    ensures SkipsSupported(adj, w, Add(levels, level, v), levelOf[v := level])
  {
    var levels', levelOf' := Add(levels, level, v), levelOf[v := level];
    forall u, l: nat | u in levelOf' && l < levelOf'[u] && Open(levels', w, l)
      ensures Supported(adj, levelOf', u, l)
    {
      assert l in levels;
      AddOpensNothing(levels, w, level, v, l);
      SupportStays(adj, levelOf, v, level, u, l);
    }
  }

  lemma AddKeepsGreedy(adj: Adjacency, w: nat, levels: Levels, levelOf: map<nat, nat>, height: nat, v: nat, level: nat)
    requires Represents(levels, levelOf, height) && Greedy(adj, w, levels, levelOf)
    requires Fits(adj, w, levels, levelOf, height, v, level)
    ensures Represents(Add(levels, level, v), levelOf[v := level], if level == height then height + 1 else height)
    ensures Greedy(adj, w, Add(levels, level, v), levelOf[v := level])
  {
    AddKeepsRepresents(levels, levelOf, height, v, level);
    AddKeepsSkipsSupported(adj, w, levels, levelOf, height, v, level);
    assert DependenciesBelow(adj, levelOf[v := level]);
    assert WidthKept(Add(levels, level, v), w);
  }

  /** The level for the next index: above its dependencies, or the lowest open one; then past full levels. */
  method ChooseLevel(adj: Adjacency, w: nat, levels: Levels, idx: nat, ghost levelOf: map<nat, nat>, ghost height: nat)
    returns (level: nat)
    requires Represents(levels, levelOf, height) && WidthKept(levels, w)
    requires idx < |adj| && idx !in levelOf && forall d :: d in adj[idx] ==> d in levelOf
    ensures Fits(adj, w, levels, levelOf, height, idx, level)
  {
    var maxLevel := MaxLevel(levels, adj[idx], levelOf, height);
    var lowest := LowestOpen(levels, w);
    level := if maxLevel.Some? then maxLevel.value + 1 else lowest;
    forall l: nat | l < level ensures Full(levels, w, l) || Supported(adj, levelOf, idx, l) {
      if maxLevel.Some? {
        var d :| d in adj[idx] && levelOf[d] == maxLevel.value;
        assert Supported(adj, levelOf, idx, l);
      } else {
        assert Open(levels, w, lowest) && l in levels && !Open(levels, w, l);
      }
    }
    while level in levels && |levels[level]| == w
      invariant level <= height
      invariant forall l: nat :: l < level ==> Full(levels, w, l) || Supported(adj, levelOf, idx, l)
      invariant forall d :: d in adj[idx] ==> levelOf[d] < level
      decreases height - level
    {
      level := level + 1;
    }
  }

  /** A layering: no level is empty or too wide, levels are contiguous, every index is on exactly one, and every
      dependency is on a lower one. */
  predicate IsLayering(adj: Adjacency, w: nat, levels: Levels) {
    && WidthKept(levels, w)
    && (forall l :: l in levels && l > 0 ==> l - 1 in levels)
    && (forall v: nat :: v < |adj| ==> OnSome(levels, v))
    && (forall l, m :: l in levels && m in levels && l != m ==> levels[l] !! levels[m])
    && forall l: nat, v: nat :: l in levels && v in levels[l] ==> AboveDependencies(adj, levels, l, v)
  }

  predicate OnSome(levels: Levels, v: nat) {
    exists l :: l in levels && v in levels[l]
  }

  predicate AboveDependencies(adj: Adjacency, levels: Levels, l: nat, v: nat) {
    v < |adj| && forall d :: d in adj[v] ==> exists m :: m in levels && m < l && d in levels[m]
  }

  lemma GreedyIsLayering(adj: Adjacency, w: nat, levels: Levels, levelOf: map<nat, nat>, height: nat)
    requires Represents(levels, levelOf, height) && Greedy(adj, w, levels, levelOf)
    requires forall v: nat :: v in levelOf <==> v < |adj|
    ensures IsLayering(adj, w, levels)
  {
    forall v: nat | v < |adj| ensures OnSome(levels, v) {
      assert levelOf[v] in levels && v in levels[levelOf[v]];
    }
    forall l: nat, v: nat | l in levels && v in levels[l] ensures AboveDependencies(adj, levels, l, v) {
      assert levelOf[v] == l;
      forall d | d in adj[v] ensures exists m :: m in levels && m < l && d in levels[m] {
        assert levelOf[d] in levels && d in levels[levelOf[d]];
      }
    }
    forall l, m | l in levels && m in levels && l != m ensures levels[l] !! levels[m] {
      forall v | v in levels[l] ensures v !in levels[m] {
        assert levelOf[v] == l;
      }
    }
  }

  /** The indices of `placed` on level `l`. */
  function OnLevel(placed: seq<nat>, levelOf: map<nat, nat>, l: nat): set<nat> {
    set v | v in placed && v in levelOf && levelOf[v] == l
  }

  /** Index `v` is on the lowest level that is above its dependencies and not full of indices in `placed`. */
  ghost predicate OnLowest(adj: Adjacency, w: nat, levelOf: map<nat, nat>, placed: seq<nat>, v: nat) {
    && v < |adj| && v in levelOf
    && (forall d :: d in adj[v] ==> d in levelOf && levelOf[d] < levelOf[v])
    && (w > 0 ==> |OnLevel(placed, levelOf, levelOf[v])| < w)
    && forall l: nat :: l < levelOf[v] ==>
                          Supported(adj, levelOf, v, l) || (w > 0 && |OnLevel(placed, levelOf, l)| >= w)
  }

  /** Taken from the end of the ordering, each index is on the lowest level that can take it. */
  ghost predicate LowestLevels(adj: Adjacency, ordering: seq<nat>, w: nat, levelOf: map<nat, nat>, first: nat) {
    forall k :: first <= k < |ordering| ==> OnLowest(adj, w, levelOf, ordering[k + 1..], ordering[k])
  }

  lemma NewOnLowest(adj: Adjacency, w: nat, levels: Levels, levelOf: map<nat, nat>, height: nat, placed: seq<nat>,
                    v: nat, level: nat)
    requires Represents(levels, levelOf, height) && Fits(adj, w, levels, levelOf, height, v, level)
    requires v !in placed && forall u :: u in levelOf <==> u in placed
    ensures OnLowest(adj, w, levelOf[v := level], placed, v)
  {
    var levelOf' := levelOf[v := level];
    forall l: nat ensures OnLevel(placed, levelOf', l) == if l in levels then levels[l] else {} {
      assert l in levels ==> forall u :: u in levels[l] ==> u in placed && u != v;
    }
    forall l: nat | l < level && Supported(adj, levelOf, v, l) ensures Supported(adj, levelOf', v, l) {
      SupportStays(adj, levelOf, v, level, v, l);
    }
  }

  lemma OldOnLowest(adj: Adjacency, w: nat, levelOf: map<nat, nat>, placed: seq<nat>, u: nat, v: nat, level: nat)
    requires OnLowest(adj, w, levelOf, placed, u) && v !in levelOf && v !in placed
    ensures OnLowest(adj, w, levelOf[v := level], placed, u)
  {
    var levelOf' := levelOf[v := level];
    forall l: nat ensures OnLevel(placed, levelOf', l) == OnLevel(placed, levelOf, l) {
    }
    forall l: nat | l < levelOf[u] && Supported(adj, levelOf, u, l) ensures Supported(adj, levelOf', u, l) {
      SupportStays(adj, levelOf, v, level, u, l);
    }
  }

  lemma AddKeepsLowest(adj: Adjacency, ordering: seq<nat>, w: nat, levels: Levels, levelOf: map<nat, nat>, height: nat,
                       k: nat, level: nat)
    requires k < |ordering| && Distinct(ordering) && LowestLevels(adj, ordering, w, levelOf, k + 1)
    requires Represents(levels, levelOf, height) && Fits(adj, w, levels, levelOf, height, ordering[k], level)
    requires forall u :: u in levelOf <==> u in ordering[k + 1..]
    ensures LowestLevels(adj, ordering, w, levelOf[ordering[k] := level], k)
  {
    var v := ordering[k];
    forall i | k <= i < |ordering|
      ensures OnLowest(adj, w, levelOf[v := level], ordering[i + 1..], ordering[i])
    {
      assert v !in ordering[i + 1..];
      if i == k {
        NewOnLowest(adj, w, levels, levelOf, height, ordering[k + 1..], v, level);
      } else {
        OldOnLowest(adj, w, levelOf, ordering[i + 1..], ordering[i], v, level);
      }
    }
  }

  lemma NoneIsLower(adj: Adjacency, w: nat, a: map<nat, nat>, b: map<nat, nat>, placed: seq<nat>, v: nat)
    requires OnLowest(adj, w, a, placed, v) && OnLowest(adj, w, b, placed, v)
    requires forall u :: u in placed ==> u in a && u in b && a[u] == b[u]
    requires forall d :: d in adj[v] ==> d in placed
    ensures a[v] <= b[v]
  {
    assert OnLevel(placed, a, b[v]) == OnLevel(placed, b, b[v]);
    assert !Supported(adj, a, v, b[v]);
  }

  lemma LaterIsPlaced(adj: Adjacency, ordering: seq<nat>, first: nat, d: nat)
    requires Dag(adj) && SortOf(adj, ordering) && first < |ordering| && d in adj[ordering[first]]
    ensures d in ordering[first + 1..]
  {
    assert d in ordering;
    var q :| 0 <= q < |ordering| && ordering[q] == d;
    assert ordering[first + 1..][q - first - 1] == d;
  }

  /** The order determines the levels. */
  lemma {:induction false} LevelsAreDetermined(adj: Adjacency, ordering: seq<nat>, w: nat, a: map<nat, nat>,
                                               b: map<nat, nat>, first: nat)
    requires Dag(adj) && SortOf(adj, ordering) && first <= |ordering|
    requires LowestLevels(adj, ordering, w, a, first) && LowestLevels(adj, ordering, w, b, first)
    ensures forall u :: u in ordering[first..] ==> u in a && u in b && a[u] == b[u]
    decreases |ordering| - first
  {
    if first < |ordering| {
      LevelsAreDetermined(adj, ordering, w, a, b, first + 1);
      var placed, v := ordering[first + 1..], ordering[first];
      assert OnLowest(adj, w, a, placed, v) && OnLowest(adj, w, b, placed, v);
      forall d | d in adj[v] ensures d in placed {
        LaterIsPlaced(adj, ordering, first, d);
      }
      NoneIsLower(adj, w, a, b, placed, v);
      NoneIsLower(adj, w, b, a, placed, v);
      assert ordering[first..] == [v] + placed;
    }
  }

  method AssignLevels(adj: Adjacency, ordering: seq<nat>, w: nat)
    returns (levels: Levels, ghost levelOf: map<nat, nat>, ghost height: nat)
    requires Dag(adj) && SortOf(adj, ordering)
    ensures IsLayering(adj, w, levels)
    ensures Represents(levels, levelOf, height) && Greedy(adj, w, levels, levelOf)
    ensures LowestLevels(adj, ordering, w, levelOf, 0)
    ensures forall v: nat :: v in levelOf <==> v < |adj|
  {
    levels, levelOf, height := map[], map[], 0;
    var k := |ordering|;
    while k > 0
      invariant 0 <= k <= |ordering|
      invariant Represents(levels, levelOf, height) && Greedy(adj, w, levels, levelOf)
      invariant LowestLevels(adj, ordering, w, levelOf, k)
      invariant forall v :: v in levelOf <==> v in ordering[k..]
    {
      k := k - 1;
      var idx := ordering[k];
      forall d | d in adj[idx] ensures d in levelOf {
        assert d in ordering;
        var q :| 0 <= q < |ordering| && ordering[q] == d;
        assert ordering[k + 1..][q - k - 1] == d;
      }
      assert idx !in levelOf;
      var level := ChooseLevel(adj, w, levels, idx, levelOf, height);
      AddKeepsGreedy(adj, w, levels, levelOf, height, idx, level);
      AddKeepsLowest(adj, ordering, w, levels, levelOf, height, k, level);
      levels, levelOf, height :=
        Add(levels, level, idx), levelOf[idx := level], if level == height then height + 1 else height;
      assert ordering[k..] == [idx] + ordering[k + 1..];
    }
    GreedyIsLayering(adj, w, levels, levelOf, height);
  }

  // ---------------------------------------------------------------------------------------------
  // The number of levels
  // ---------------------------------------------------------------------------------------------

  /** How many of the levels below `l` are not full. */
  function OpenBelow(levels: Levels, w: nat, l: nat): nat {
    if l == 0 then 0 else OpenBelow(levels, w, l - 1) + if Open(levels, w, l - 1) then 1 else 0
  }

  lemma {:induction false} OpenBelowMonotone(levels: Levels, w: nat, l: nat, m: nat)
    requires l <= m
    ensures OpenBelow(levels, w, l) <= OpenBelow(levels, w, m)
  {
    if l < m {
      OpenBelowMonotone(levels, w, l, m - 1);
    }
  }

  lemma {:induction false} HighestOpenBelow(levels: Levels, w: nat, l: nat) returns (h: nat)
    requires OpenBelow(levels, w, l) > 0
    ensures h < l && Open(levels, w, h) && OpenBelow(levels, w, h) + 1 == OpenBelow(levels, w, l)
  {
    if Open(levels, w, l - 1) {
      h := l - 1;
    } else {
      h := HighestOpenBelow(levels, w, l - 1);
    }
  }

  /** From every index a chain of dependencies descends that is longer than the open levels below it. */
  lemma {:induction false} ChainThroughOpenLevels(
      adj: Adjacency, w: nat, levels: Levels, levelOf: map<nat, nat>, height: nat, v: nat) returns (chain: seq<nat>)
    requires Represents(levels, levelOf, height) && Greedy(adj, w, levels, levelOf) && v in levelOf
    ensures IsChain(adj, chain) && chain != [] && chain[0] == v
    ensures |chain| >= 1 + OpenBelow(levels, w, levelOf[v])
    decreases levelOf[v]
  {
    if OpenBelow(levels, w, levelOf[v]) == 0 {
      chain := [v];
    } else {
      var h := HighestOpenBelow(levels, w, levelOf[v]);
      assert Supported(adj, levelOf, v, h);
      var d :| d in adj[v] && d in levelOf && h <= levelOf[d];
      OpenBelowMonotone(levels, w, h, levelOf[d]);
      var rest := ChainThroughOpenLevels(adj, w, levels, levelOf, height, d);
      chain := [v] + rest;
    }
  }

  /** How many indices sit below level `l`. */
  ghost function PlacedBelow(levelOf: map<nat, nat>, l: nat): set<nat> {
    set v | v in levelOf && levelOf[v] < l
  }

  ghost function PlacedAt(levelOf: map<nat, nat>, l: nat): set<nat> {
    set v | v in levelOf && levelOf[v] == l
  }

  lemma PlacedByLevel(levelOf: map<nat, nat>, l: nat)
    ensures |PlacedBelow(levelOf, l + 1)| == |PlacedBelow(levelOf, l)| + |PlacedAt(levelOf, l)|
  {
    assert PlacedBelow(levelOf, l + 1) == PlacedBelow(levelOf, l) + PlacedAt(levelOf, l);
  }

  lemma {:induction false} LevelsHoldEnough(levels: Levels, w: nat, levelOf: map<nat, nat>, height: nat, l: nat)
    requires Represents(levels, levelOf, height) && WidthKept(levels, w) && l <= height && w > 0
    ensures |PlacedBelow(levelOf, l)| + (w - 1) * OpenBelow(levels, w, l) >= w * l
  {
    if l > 0 {
      LevelsHoldEnough(levels, w, levelOf, height, l - 1);
      PlacedByLevel(levelOf, l - 1);
      assert PlacedAt(levelOf, l - 1) == levels[l - 1];
      assert levels[l - 1] != {};
      MulStep(w, l - 1);
      MulStep(w - 1, OpenBelow(levels, w, l - 1));
    }
  }

  lemma MulStep(a: int, x: int)
    ensures a * (x + 1) == a * x + a
  {
  }

  lemma MulMonotone(a: nat, x: nat, y: nat)
    requires x <= y
    ensures a * x <= a * y
  {
  }

  /** Some chain of dependencies is at least as long as there are open levels. */
  lemma LongChain(adj: Adjacency, w: nat, levels: Levels, levelOf: map<nat, nat>, height: nat) returns (chain: seq<nat>)
    requires Represents(levels, levelOf, height) && Greedy(adj, w, levels, levelOf)
    ensures IsChain(adj, chain) && OpenBelow(levels, w, height) <= |chain|
  {
    chain := [];
    if height > 0 {
      assert height - 1 in levels && levels[height - 1] != {};
      var v :| v in levels[height - 1];
      chain := ChainThroughOpenLevels(adj, w, levels, levelOf, height, v);
    }
  }

  /** Graham's bound: with `n` indices and width `w`, the number of levels `k` satisfies
      `w*k <= n + (w-1)*D` for the length `D` of some chain of dependencies. */
  lemma GrahamBound(adj: Adjacency, w: nat, levels: Levels, levelOf: map<nat, nat>, height: nat)
    returns (chain: seq<nat>)
    requires Represents(levels, levelOf, height) && Greedy(adj, w, levels, levelOf) && w > 0
    requires forall v: nat :: v in levelOf <==> v < |adj|
    ensures IsChain(adj, chain) && w * height <= |adj| + (w - 1) * |chain|
  {
    chain := LongChain(adj, w, levels, levelOf, height);
    assert PlacedBelow(levelOf, height) == Indices(|adj|);
    LevelsHoldEnough(levels, w, levelOf, height, height);
    MulMonotone(w - 1, OpenBelow(levels, w, height), |chain|);
  }

  /** Any assignment of steps that respects the dependencies and puts at most `w` jobs in a step. */
  ghost predicate ValidSchedule(deps: Deps, w: nat, step: map<JobId, nat>, steps: nat) {
    && step.Keys == deps.Keys
    && (forall j :: j in step ==> step[j] < steps)
    && (forall j, d :: j in deps && d in deps[j] && d in deps ==> step[d] < step[j])
    && forall s: nat :: s < steps ==> |PlacedAt(step, s)| <= w
  }

  lemma {:induction false} WalkNeedsSteps(deps: Deps, w: nat, step: map<JobId, nat>, steps: nat, walk: seq<JobId>)
    requires ValidSchedule(deps, w, step, steps) && Closed(deps) && IsWalk(deps, walk) && walk[0] in deps
    ensures |walk| <= step[walk[0]] + 1
  {
    if |walk| > 1 {
      WalkNeedsSteps(deps, w, step, steps, walk[1..]);
    }
  }

  lemma {:induction false} ScheduleHoldsAtMost(deps: Deps, w: nat, step: map<JobId, nat>, steps: nat, s: nat)
    requires ValidSchedule(deps, w, step, steps) && s <= steps
    ensures |PlacedBelow(step, s)| <= w * s
  {
    if s > 0 {
      ScheduleHoldsAtMost(deps, w, step, steps, s - 1);
      PlacedByLevel(step, s - 1);
      MulStep(w, s - 1);
    }
  }

  /** No valid schedule is shorter than a walk along dependencies, or than the jobs divided by the width. */
  lemma ScheduleLowerBounds(deps: Deps, w: nat, step: map<JobId, nat>, steps: nat, walk: seq<JobId>)
    requires ValidSchedule(deps, w, step, steps) && Closed(deps)
    requires walk != [] ==> IsWalk(deps, walk) && walk[0] in deps
    ensures |walk| <= steps && |deps| <= w * steps
  {
    if walk != [] {
      WalkNeedsSteps(deps, w, step, steps, walk);
    }
    assert PlacedBelow(step, steps) == deps.Keys;
    ScheduleHoldsAtMost(deps, w, step, steps, steps);
  }

  /** `k` steps satisfy Graham's bound for the jobs of `deps`. */
  ghost predicate WithinGraham(deps: Deps, w: nat, k: nat) {
    exists walk: seq<JobId> :: GrahamWitness(deps, w, k, walk)
  }

  ghost predicate GrahamWitness(deps: Deps, w: nat, k: nat, walk: seq<JobId>) {
    && (walk != [] ==> IsWalk(deps, walk) && walk[0] in deps)
    && w * k <= |deps| + (w - 1) * |walk|
  }

  /** Steps within Graham's bound are at most `2 - 1/w` times those of any valid schedule of width `w`. */
  lemma NearOptimal(deps: Deps, w: nat, k: nat, step: map<JobId, nat>, steps: nat)
    requires Closed(deps) && w > 0 && WithinGraham(deps, w, k)
    requires ValidSchedule(deps, w, step, steps)
    ensures w * k <= (2 * w - 1) * steps
  {
    var walk :| GrahamWitness(deps, w, k, walk);
    ScheduleLowerBounds(deps, w, step, steps, walk);
    MulMonotone(w - 1, |walk|, steps);
    AddProducts(w, w - 1, steps);
  }

  lemma AddProducts(a: int, b: int, c: int)
    ensures a * c + b * c == (a + b) * c
  {
  }

  lemma {:induction false} PathsGoDown(adj: Adjacency, levelOf: map<nat, nat>, i: nat, j: nat)
    requires Dag(adj) && DependenciesBelow(adj, levelOf) && i in levelOf
    requires i < |adj| && Reach(adj, i, j) && i != j
    ensures j in levelOf && levelOf[j] < levelOf[i]
    decreases |adj| - i
  {
    var m :| m in adj[i] && Reach(adj, m, j);
    if m != j {
      PathsGoDown(adj, levelOf, m, j);
    }
  }
}
