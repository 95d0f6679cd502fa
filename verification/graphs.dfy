/**
  Dependency graphs: the flow graph of src/backend/flow_backend.rs and the topologically indexed
  adjacency lists, reachability and transitive reduction that src/job_ordering/stepped.rs works on.
 */
module Graphs {
  import opened Sequences

  type JobId = nat

  /** Every job with the jobs it depends on directly. */
  type Deps = map<JobId, set<JobId>>

  /** Every dependency is itself a job. */
  ghost predicate Closed(deps: Deps) {
    forall j :: j in deps ==> deps[j] <= deps.Keys
  }

  /** Every job before everything it depends on, each job once. */
  ghost predicate IsTopological(deps: Deps, order: seq<JobId>) {
    && (forall j :: j in order <==> j in deps)
    && Distinct(order)
    && forall p, q :: 0 <= p < |order| && 0 <= q < |order| && order[q] in deps[order[p]] ==> p < q
  }

  // ---------------------------------------------------------------------------------------------
  // The flow graph
  // ---------------------------------------------------------------------------------------------

  datatype FlowGraph = FlowGraph(dependencies: Deps, dependents: Deps) {
    function Dependencies(j: JobId): set<JobId> {
      if j in dependencies then dependencies[j] else {}
    }

    function Dependents(j: JobId): set<JobId> {
      if j in dependents then dependents[j] else {}
    }
  }

  /** Builds both directions of the graph in one pass over the jobs. */
  method NewFlowGraph(tasks: Deps) returns (g: FlowGraph)
    ensures g.dependencies == tasks
    ensures forall d, j :: j in g.Dependents(d) <==> j in tasks && d in g.Dependencies(j)
  {
    var dependencies: Deps, dependents: Deps := map[], map[];
    var remaining := tasks.Keys;
    while remaining != {}
      invariant remaining <= tasks.Keys
      invariant dependencies == map j | j in tasks && j !in remaining :: tasks[j]
      invariant forall d, j :: d in dependents && j in dependents[d] <==> j in tasks && j !in remaining && d in tasks[j]
    {
      var task :| task in remaining;
      dependencies := dependencies[task := tasks[task]];
      var deps := tasks[task];
      while deps != {}
        invariant deps <= tasks[task]
        invariant forall d, j :: d in dependents && j in dependents[d] <==>
                    j in tasks && d in tasks[j] && (j !in remaining || (j == task && d !in deps))
      {
        var dep :| dep in deps;
        dependents := dependents[dep := (if dep in dependents then dependents[dep] else {}) + {task}];
        deps := deps - {dep};
      }
      remaining := remaining - {task};
    }
    g := FlowGraph(dependencies, dependents);
  }

  // ---------------------------------------------------------------------------------------------
  // Transitive dependencies
  // ---------------------------------------------------------------------------------------------

  /** A walk from a job to one of its dependencies, to one of that one's, and so on. */
  ghost predicate IsWalk(deps: Deps, walk: seq<JobId>) {
    && walk != []
    && forall i :: 0 <= i < |walk| - 1 ==> walk[i] in deps && walk[i + 1] in deps[walk[i]]
  }

  /** `d` is a direct or indirect dependency of `j`. */
  ghost predicate DependsOn(deps: Deps, j: JobId, d: JobId) {
    exists walk :: IsWalk(deps, walk) && |walk| >= 2 && walk[0] == j && walk[|walk| - 1] == d
  }

  /** A set that holds the direct dependencies of `j` and of each of its own members holds all of them. */
  lemma ClosedSetHoldsAll(deps: Deps, done: set<JobId>, j: JobId, d: JobId)
    requires j in deps && deps[j] <= done
    requires forall k :: k in done ==> k in deps && deps[k] <= done
    requires DependsOn(deps, j, d)
    ensures d in done
  {
    var walk :| IsWalk(deps, walk) && |walk| >= 2 && walk[0] == j && walk[|walk| - 1] == d;
    var i := 1;
    while i < |walk| - 1
      invariant 1 <= i <= |walk| - 1 && walk[i] in done
    {
      i := i + 1;
    }
  }

  // ---------------------------------------------------------------------------------------------
  // Topologically indexed adjacency lists
  // ---------------------------------------------------------------------------------------------

  /** `adj[i]` holds the indices `i` depends on; all of them are larger. */
  type Adjacency = seq<set<nat>>

  ghost predicate Dag(adj: Adjacency) {
    forall i, j :: 0 <= i < |adj| && j in adj[i] ==> i < j < |adj|
  }

  /** The adjacency list of `deps` with jobs renamed to their positions in a topological order. */
  function Indexed(deps: Deps, order: seq<JobId>): Adjacency
    requires forall j :: j in order ==> j in deps
  {
    seq(|order|, p requires 0 <= p < |order| => set q: nat | q < |order| && order[q] in deps[order[p]])
  }

  predicate Reach(adj: Adjacency, i: nat, j: nat)
    requires Dag(adj) && i < |adj|
    decreases |adj| - i
  {
    i == j || exists m :: m in adj[i] && Reach(adj, m, j)
  }

  lemma {:induction false} ReachGoesUp(adj: Adjacency, i: nat, j: nat)
    requires Dag(adj) && i < |adj| && Reach(adj, i, j)
    ensures i <= j < |adj|
    decreases |adj| - i
  {
    if i != j {
      var m :| m in adj[i] && Reach(adj, m, j);
      ReachGoesUp(adj, m, j);
    }
  }

  lemma {:induction false} ReachTransitive(adj: Adjacency, i: nat, j: nat, k: nat)
    requires Dag(adj) && i < |adj| && j < |adj| && Reach(adj, i, j) && Reach(adj, j, k)
    ensures Reach(adj, i, k)
    decreases |adj| - i
  {
    if i != j {
      var m :| m in adj[i] && Reach(adj, m, j);
      ReachTransitive(adj, m, j, k);
    }
  }

  /** The edge from `i` to `j` is implied by a path through another successor of `i`. */
  predicate Bypassed(adj: Adjacency, i: nat, j: nat)
    requires Dag(adj) && i < |adj|
  {
    exists m :: m in adj[i] && m != j && Reach(adj, m, j)
  }

  function Reduction(adj: Adjacency): (red: Adjacency)
    requires Dag(adj)
    ensures |red| == |adj| && Dag(red)
    ensures forall i :: 0 <= i < |adj| ==> red[i] <= adj[i]
  {
    seq(|adj|, i requires 0 <= i < |adj| => set j | j in adj[i] && !Bypassed(adj, i, j))
  }

  lemma {:induction false} EdgeSurvives(adj: Adjacency, i: nat, j: nat)
    requires Dag(adj) && i < |adj| && j in adj[i]
    ensures Reach(Reduction(adj), i, j)
    decreases j - i, 0
  {
    var red := Reduction(adj);
    if Bypassed(adj, i, j) {
      var m :| m in adj[i] && m != j && Reach(adj, m, j);
      ReachGoesUp(adj, m, j);
      EdgeSurvives(adj, i, m);
      PathSurvives(adj, m, j);
      ReachTransitive(red, i, m, j);
    } else {
      assert j in red[i] && Reach(red, j, j);
    }
  }

  lemma {:induction false} PathSurvives(adj: Adjacency, i: nat, j: nat)
    requires Dag(adj) && i < |adj| && Reach(adj, i, j)
    ensures Reach(Reduction(adj), i, j)
    decreases j - i, 1
  {
    if i != j {
      var m :| m in adj[i] && Reach(adj, m, j);
      ReachGoesUp(adj, m, j);
      EdgeSurvives(adj, i, m);
      PathSurvives(adj, m, j);
      ReachTransitive(Reduction(adj), i, m, j);
    }
  }

  lemma {:induction false} SubgraphReaches(red: Adjacency, adj: Adjacency, i: nat, j: nat)
    requires Dag(adj) && Dag(red) && |red| == |adj| && i < |adj|
    requires forall k :: 0 <= k < |adj| ==> red[k] <= adj[k]
    requires Reach(red, i, j)
    ensures Reach(adj, i, j)
    decreases |adj| - i
  {
    if i != j {
      var m :| m in red[i] && Reach(red, m, j);
      SubgraphReaches(red, adj, m, j);
    }
  }

  /** The reduction reaches exactly what the graph reaches, and no edge of it can be dropped. */
  lemma ReductionKeepsReachability(adj: Adjacency, i: nat, j: nat)
    requires Dag(adj) && i < |adj|
    ensures Reach(Reduction(adj), i, j) <==> Reach(adj, i, j)
    ensures j in Reduction(adj)[i] ==>
              var without := Reduction(adj)[i := Reduction(adj)[i] - {j}];
              Dag(without) && !Reach(without, i, j)
  {
    var red := Reduction(adj);
    if Reach(adj, i, j) {
      PathSurvives(adj, i, j);
    }
    if Reach(red, i, j) {
      SubgraphReaches(red, adj, i, j);
    }
    if j in red[i] {
      var without := red[i := red[i] - {j}];
      assert Dag(without);
      if Reach(without, i, j) {
        var m :| m in without[i] && Reach(without, m, j);
        SubgraphReaches(without, adj, m, j);
      }
    }
  }

  /** Every path of indices is a chain; consecutive elements are edges. */
  ghost predicate IsChain(adj: Adjacency, chain: seq<nat>) {
    && (forall i :: 0 <= i < |chain| ==> chain[i] < |adj|)
    && forall i :: 0 <= i < |chain| - 1 ==> chain[i + 1] in adj[chain[i]]
  }
}
