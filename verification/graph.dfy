/**
 * Directed graphs as a mapping from a node's tag to the set of its successors'
 * tags (mindstone/_graph.py). The queries are functions of the mapping; the
 * operations that change the mapping in place are methods of `Digraph`.
 */
module Graph {
  import opened Common

  type Tag = string
  type Graph = map<Tag, set<Tag>>

  // Queries
  // ~~~~~~~

  /** `get_edges`: every pair `(a, b)` with `b` a successor of `a`. */
  function Edges(g: Graph): (r: set<(Tag, Tag)>)
    ensures forall a, b :: (a, b) in r <==> a in g && b in g[a]
  {
    set a, b | a in g && b in g[a] :: (a, b)
  }

  /** `get_in_neighbors`: the nodes that have `k` as a successor. */
  function InNeighbors(g: Graph, k: Tag): (r: set<Tag>)
    ensures r <= g.Keys
  {
    set n | n in g && k in g[n]
  }

  /** The in-neighbours of `k` are exactly the sources of the edges ending at `k`. */
  lemma InNeighborsAreEdgeSources(g: Graph, k: Tag)
    ensures forall n :: n in InNeighbors(g, k) <==> (n, k) in Edges(g)
  {
  }

  /** `get_out_neighbors`: a copy of the successor set; a missing node raises KeyError. */
  function OutNeighbors(g: Graph, k: Tag): (r: Result<set<Tag>>)
    ensures r.Ok? <==> k in g
    ensures r.Ok? ==> forall n :: n in r.value <==> (k, n) in Edges(g)
    ensures r.Err? ==> r.error == KeyErr(k)
  {
    if k in g then Ok(g[k]) else Err(KeyErr(k))
  }

  /** `in_degree` / `get_in_degree` */
  function InDegree(g: Graph, k: Tag): nat {
    |InNeighbors(g, k)|
  }

  /** `out_degree` / `get_out_degree` */
  function OutDegree(g: Graph, k: Tag): (r: Result<nat>)
    ensures r.Ok? <==> k in g
    ensures r.Ok? ==> r.value == |g[k]|
    ensures r.Err? ==> r.error == KeyErr(k)
  {
    match OutNeighbors(g, k)
    case Ok(s) => Ok(|s|)
    case Err(e) => Err(e)
  }

  /** `is_source`: no edge ends at `k` (also for a tag that is not a node). */
  predicate IsSource(g: Graph, k: Tag) {
    InDegree(g, k) == 0
  }

  /** `is_sink`: no edge starts at `k`; a missing node raises KeyError. */
  function IsSink(g: Graph, k: Tag): (r: Result<bool>)
    ensures r.Ok? <==> k in g
    ensures r.Ok? ==> (r.value <==> forall n :: (k, n) !in Edges(g))
  {
    match OutDegree(g, k)
    case Ok(d) => Ok(d == 0)
    case Err(e) => Err(e)
  }

  /** `get_isolated`: the nodes with in-degree and out-degree 0. */
  function Isolated(g: Graph): set<Tag> {
    set k | k in g && InDegree(g, k) == 0 && OutDegree(g, k) == Ok(0)
  }

  /** `get_sources`: the nodes with in-degree 0. */
  function Sources(g: Graph): set<Tag> {
    set k | k in g && IsSource(g, k)
  }

  /** `is_isolated` */
  predicate IsIsolated(g: Graph, k: Tag) {
    k in Isolated(g)
  }

  /** A node is isolated exactly when no edge touches it; every isolated node is a source. */
  lemma IsolatedIffUntouched(g: Graph, k: Tag)
    ensures IsIsolated(g, k) <==> k in g && forall a, b :: (a, b) in Edges(g) ==> a != k && b != k
    ensures IsIsolated(g, k) ==> k in Sources(g)
  {
    if k in g {
      if InDegree(g, k) != 0 {
        var n :| n in InNeighbors(g, k);
        assert (n, k) in Edges(g);
      }
      if g[k] != {} {
        var n :| n in g[k];
        assert (k, n) in Edges(g);
      }
      if InDegree(g, k) == 0 && g[k] == {} {
        assert InNeighbors(g, k) == {};
        forall a, b | (a, b) in Edges(g) ensures a != k && b != k {
          assert k in g[a] ==> a in InNeighbors(g, k);
        }
      }
    }
  }

  // Mutations, as functions of the old mapping
  // ~~~~~~~~~~~~~~~~~~~~~~~~~~~~~~~~~~~~~~~~~~

  /** The mapping after `remove_node(graph, k)`. */
  function Pruned(g: Graph, k: Tag): (r: Graph)
    ensures k !in r
    ensures k in g ==> forall n :: n in r ==> k !in r[n]
    ensures k in g ==> r.Keys == g.Keys - {k}
    ensures k in g ==> Edges(r) == set e | e in Edges(g) && e.0 != k && e.1 != k
    ensures k !in g ==> r == g
  {
    if k in g then map n | n in g && n != k :: g[n] - {k} else g
  }

  /** The mapping after `add_edge(graph, a, b)`, or the exception it raises. */
  function EdgeAdded(g: Graph, a: Tag, b: Tag): (r: Result<Graph>)
    ensures a == b ==> r == Err(Error(ValueError, "A node cannot be connected to itself"))
    ensures a != b && a !in g ==> r == Err(KeyErr(a))
    ensures r.Ok? ==> Edges(r.value) == Edges(g) + {(a, b)} && r.value.Keys == g.Keys
  {
    if a == b then Err(Error(ValueError, "A node cannot be connected to itself"))
    else if a !in g then Err(KeyErr(a))
    else Ok(g[a := g[a] + {b}])
  }

  /** Adding an edge leaves every other node's successors alone and is idempotent. */
  lemma {:induction false} EdgeAddedIdempotent(g: Graph, a: Tag, b: Tag)
    requires EdgeAdded(g, a, b).Ok?
    ensures b in EdgeAdded(g, a, b).value[a]
    ensures forall n :: n in g && n != a ==> EdgeAdded(g, a, b).value[n] == g[n]
    ensures EdgeAdded(EdgeAdded(g, a, b).value, a, b) == EdgeAdded(g, a, b)
  {
    var h := EdgeAdded(g, a, b).value;
    assert h[a] + {b} == h[a];
    assert h[a := h[a] + {b}] == h;
  }

  /** The mapping after adding each edge in turn; the first failure stops the rest. */
  function EdgesAdded(g: Graph, edges: seq<(Tag, Tag)>): (r: (Graph, Outcome))
    decreases |edges|
  {
    if edges == [] then (g, Done)
    else match EdgeAdded(g, edges[0].0, edges[0].1)
      case Err(e) => (g, Raised(e))
      case Ok(h) => EdgesAdded(h, edges[1..])
  }

  /** Adding edges between existing nodes never adds or removes a node. */
  lemma {:induction false} EdgesAddedKeepsNodes(g: Graph, edges: seq<(Tag, Tag)>)
    ensures EdgesAdded(g, edges).0.Keys == g.Keys
    ensures Edges(g) <= Edges(EdgesAdded(g, edges).0)
    decreases |edges|
  {
    if edges != [] {
      var r := EdgeAdded(g, edges[0].0, edges[0].1);
      if r.Ok? {
        EdgesAddedKeepsNodes(r.value, edges[1..]);
      }
    }
  }

  // Complete paths
  // ~~~~~~~~~~~~~~

  /**
   * The paths that one call of `_get_paths_util` hands back to its caller: the call
   * for the last node of `path` returns `path` itself when that node is a sink or the
   * origin `start`; otherwise it hands back, through the shared accumulator, whatever
   * the calls for its successors hand back. `None` is an exception: KeyError for an
   * edge to a tag that is not a node, RecursionError once `fuel` (Python's recursion
   * limit) is spent — which is the fate of every branch that enters a cycle not
   * passing through the origin.
   */
  ghost function Contribution(g: Graph, path: seq<Tag>, start: Option<Tag>, fuel: nat): Option<set<seq<Tag>>>
    requires |path| > 0
    decreases fuel, 0
  {
    var key := path[|path| - 1];
    if key !in g then None
    else if g[key] == {} || start == Some(key) then Some({path})
    else if fuel == 0 then None
    else
      var origin := start.GetOr(key);
      if exists c :: c in g[key] && Via(g, path, origin, fuel - 1, c).None? then None
      else Some(Gathered(g, path, origin, fuel - 1, g[key]))
  }

  /** What the call for successor `c` of the last node of `path` hands back. */
  ghost function Via(g: Graph, path: seq<Tag>, origin: Tag, fuel: nat, c: Tag): Option<set<seq<Tag>>>
    requires |path| > 0
    decreases fuel, 1
  {
    Contribution(g, path + [c], Some(origin), fuel)
  }

  /** The paths the calls for the successors in `cs` hand back, those that raise counting for none. */
  ghost function Gathered(g: Graph, path: seq<Tag>, origin: Tag, fuel: nat, cs: set<Tag>): set<seq<Tag>>
    requires |path| > 0
    decreases fuel, 2
  {
    set c, p | c in cs && p in Via(g, path, origin, fuel, c).GetOr({}) :: p
  }

  lemma GatheredAdd(g: Graph, path: seq<Tag>, origin: Tag, fuel: nat, cs: set<Tag>, c: Tag)
    requires |path| > 0
    ensures Gathered(g, path, origin, fuel, cs + {c})
         == Gathered(g, path, origin, fuel, cs) + Via(g, path, origin, fuel, c).GetOr({})
  {
  }

  /** `get_complete_paths(graph, key)`: what the top call accumulates (its own return is dropped). */
  ghost function CompletePaths(g: Graph, key: Tag, fuel: nat): Option<set<seq<Tag>>> {
    match Contribution(g, [key], None, fuel)
    case None => None
    case Some(s) => if g[key] == {} then Some({}) else Some(s)
  }

  /** `get_all_complete_paths`: the complete paths from every node; any exception propagates. */
  ghost function AllCompletePaths(g: Graph, fuel: nat): Option<set<seq<Tag>>> {
    if exists k :: k in g && CompletePaths(g, k, fuel).None? then None
    else Some(PathsFrom(g, fuel, g.Keys))
  }

  /** The complete paths from the nodes in `ks`, those that raise counting for none. */
  ghost function PathsFrom(g: Graph, fuel: nat, ks: set<Tag>): set<seq<Tag>> {
    set k, p | k in ks && p in CompletePaths(g, k, fuel).GetOr({}) :: p
  }

  lemma PathsFromAdd(g: Graph, fuel: nat, ks: set<Tag>, k: Tag)
    ensures PathsFrom(g, fuel, ks + {k}) == PathsFrom(g, fuel, ks) + CompletePaths(g, k, fuel).GetOr({})
  {
  }

  /** `is_acyclic`: no complete path returns to its first node. */
  ghost function IsAcyclic(g: Graph, fuel: nat): Option<bool> {
    match AllCompletePaths(g, fuel)
    case None => None
    case Some(ps) => Some(!exists p :: p in ps && |p| > 0 && p[0] == p[|p| - 1])
  }

  /** Every consecutive pair of `p` is an edge of `g`. */
  ghost predicate FollowsEdges(g: Graph, p: seq<Tag>) {
    forall i :: 0 <= i < |p| - 1 ==> p[i] in g && p[i + 1] in g[p[i]]
  }

  /** Whether `n` ends a branch: a sink, or the origin of the enumeration. */
  ghost predicate Stops(g: Graph, n: Tag, origin: Tag) {
    n in g && (g[n] == {} || n == origin)
  }

  lemma FollowsEdgesExtend(g: Graph, path: seq<Tag>, c: Tag)
    requires |path| > 0 && FollowsEdges(g, path)
    requires path[|path| - 1] in g && c in g[path[|path| - 1]]
    ensures FollowsEdges(g, path + [c])
  {
    var q := path + [c];
    forall i | 0 <= i < |q| - 1 ensures q[i] in g && q[i + 1] in g[q[i]] {
      if i < |path| - 1 {
        assert q[i] == path[i] && q[i + 1] == path[i + 1];
      }
    }
  }

  /**
   * What a call hands back extends its path along edges and stops at a sink or at
   * the origin.
   */
  lemma {:induction false} ContributionShape(g: Graph, path: seq<Tag>, origin: Tag, fuel: nat)
    requires |path| > 0 && FollowsEdges(g, path)
    requires Contribution(g, path, Some(origin), fuel).Some?
    ensures forall p :: p in Contribution(g, path, Some(origin), fuel).value ==>
      path <= p && FollowsEdges(g, p) && Stops(g, p[|p| - 1], origin)
    decreases fuel
  {
    var key := path[|path| - 1];
    if g[key] != {} && origin != key {
      forall p | p in Contribution(g, path, Some(origin), fuel).value
        ensures path <= p && FollowsEdges(g, p) && Stops(g, p[|p| - 1], origin)
      {
        var c :| c in g[key] && p in Via(g, path, origin, fuel - 1, c).GetOr({});
        FollowsEdgesExtend(g, path, c);
        ContributionShape(g, path + [c], origin, fuel - 1);
        assert path <= path + [c];
      }
    }
  }

  /**
   * `get_complete_paths`: every returned path starts at `key`, follows edges, has at
   * least one edge and ends at a sink or back at `key`; from a sink there are none.
   */
  lemma {:induction false} CompletePathsShape(g: Graph, key: Tag, fuel: nat)
    requires CompletePaths(g, key, fuel).Some?
    ensures key in g
    ensures g[key] == {} ==> CompletePaths(g, key, fuel) == Some({})
    ensures forall p :: p in CompletePaths(g, key, fuel).value ==>
      |p| >= 2 && p[0] == key && FollowsEdges(g, p) && Stops(g, p[|p| - 1], key)
  {
    if g[key] != {} {
      forall p | p in CompletePaths(g, key, fuel).value
        ensures |p| >= 2 && p[0] == key && FollowsEdges(g, p) && Stops(g, p[|p| - 1], key)
      {
        assert fuel > 0;
        assert p in Gathered(g, [key], key, fuel - 1, g[key]);
        var c :| c in g[key] && p in Via(g, [key], key, fuel - 1, c).GetOr({});
        assert [key] + [c] == [key, c];
        FollowsEdgesExtend(g, [key], c);
        ContributionShape(g, [key, c], key, fuel - 1);
        assert [key, c] <= p;
        assert p[0] == key;
      }
    }
  }

  /** A graph without edges is acyclic, whatever the recursion limit. */
  lemma EdgelessIsAcyclic(g: Graph, fuel: nat)
    requires forall k :: k in g ==> g[k] == {}
    ensures IsAcyclic(g, fuel) == Some(true)
  {
    forall k | k in g ensures CompletePaths(g, k, fuel) == Some({}) {
    }
    assert !exists k :: k in g && CompletePaths(g, k, fuel).None?;
    var all := AllCompletePaths(g, fuel);
    assert all.Some?;
    forall p ensures p !in all.value {
      assert forall k :: k in g ==> p !in CompletePaths(g, k, fuel).GetOr({});
    }
  }

  /**
   * A node with a single successor `c` that neither stops nor exhausts the limit hands
   * back exactly what the call for `c` hands back.
   */
  lemma {:induction false} SingleSuccessor(g: Graph, path: seq<Tag>, start: Option<Tag>, fuel: nat, c: Tag)
    requires |path| > 0 && fuel > 0
    requires path[|path| - 1] in g && g[path[|path| - 1]] == {c} && start != Some(path[|path| - 1])
    ensures Contribution(g, path, start, fuel)
         == Contribution(g, path + [c], Some(start.GetOr(path[|path| - 1])), fuel - 1)
  {
    var key := path[|path| - 1];
    var origin := start.GetOr(key);
    if Via(g, path, origin, fuel - 1, c).Some? {
      var s := Via(g, path, origin, fuel - 1, c).value;
      assert Gathered(g, path, origin, fuel - 1, {c}) == s by {
        GatheredAdd(g, path, origin, fuel - 1, {}, c);
        assert Gathered(g, path, origin, fuel - 1, {}) == {};
        assert {} + {c} == {c};
      }
    }
  }

  /** The two-node cycle `a -> b -> a` is reported as a cycle once two levels of recursion are allowed. */
  lemma {:induction false} TwoCycleIsCyclic(a: Tag, b: Tag, fuel: nat)
    requires a != b && fuel >= 2
    ensures IsAcyclic(map[a := {b}, b := {a}], fuel) == Some(false)
  {
    var g := map[a := {b}, b := {a}];
    SingleSuccessor(g, [a], None, fuel, b);
    SingleSuccessor(g, [a] + [b], Some(a), fuel - 1, a);
    assert [a] + [b] + [a] == [a, b, a];
    assert Contribution(g, [a, b, a], Some(a), fuel - 2) == Some({[a, b, a]});
    assert CompletePaths(g, a, fuel) == Some({[a, b, a]});
    SingleSuccessor(g, [b], None, fuel, a);
    SingleSuccessor(g, [b] + [a], Some(b), fuel - 1, b);
    assert [b] + [a] + [b] == [b, a, b];
    assert Contribution(g, [b, a, b], Some(b), fuel - 2) == Some({[b, a, b]});
    assert CompletePaths(g, b, fuel) == Some({[b, a, b]});
    assert forall k :: k in g ==> k == a || k == b;
    var all := AllCompletePaths(g, fuel);
    assert all.Some? && [a, b, a] in all.value;
  }

  /**
   * `is_acyclic` only ever reports a real cycle: a `false` answer comes from a walk
   * along edges that returns to its first node.
   */
  lemma IsAcyclicFalseHasCycle(g: Graph, fuel: nat)
    requires IsAcyclic(g, fuel) == Some(false)
    ensures exists p :: |p| >= 2 && p[0] == p[|p| - 1] && FollowsEdges(g, p)
  {
    var ps := AllCompletePaths(g, fuel).value;
    var p :| p in ps && |p| > 0 && p[0] == p[|p| - 1];
    AllCompletePathsShape(g, fuel);
  }

  /** Every path `get_all_complete_paths` returns follows edges from a node to a sink or back to itself. */
  lemma AllCompletePathsShape(g: Graph, fuel: nat)
    requires AllCompletePaths(g, fuel).Some?
    ensures forall p :: p in AllCompletePaths(g, fuel).value ==>
      |p| >= 2 && FollowsEdges(g, p) && Stops(g, p[|p| - 1], p[0])
  {
    forall p | p in AllCompletePaths(g, fuel).value
      ensures |p| >= 2 && FollowsEdges(g, p) && Stops(g, p[|p| - 1], p[0])
    {
      var k :| k in g && p in CompletePaths(g, k, fuel).GetOr({});
      CompletePathsShape(g, k, fuel);
    }
  }

  /**
   * A cycle that does not pass through the origin is never left: from `a -> b -> c -> b`
   * the enumeration starting at `a` raises whatever the recursion limit.
   */
  lemma {:induction false} CycleAwayFromOriginNeverEnds(a: Tag, b: Tag, c: Tag, fuel: nat)
    requires a != b && b != c && a != c
    ensures CompletePaths(map[a := {b}, b := {c}, c := {b}], a, fuel) == None
  {
    var g := map[a := {b}, b := {c}, c := {b}];
    if fuel > 0 {
      SingleSuccessor(g, [a], None, fuel, b);
      LoopRaises(g, a, b, c, [a] + [b], fuel - 1);
    }
  }

  lemma {:induction false} LoopRaises(g: Graph, a: Tag, b: Tag, c: Tag, path: seq<Tag>, fuel: nat)
    requires a != b && b != c && a != c
    requires g == map[a := {b}, b := {c}, c := {b}]
    requires |path| > 0 && path[|path| - 1] in {b, c}
    ensures Contribution(g, path, Some(a), fuel) == None
    decreases fuel
  {
    var key := path[|path| - 1];
    var next := if key == b then c else b;
    assert g[key] == {next};
    if fuel > 0 {
      SingleSuccessor(g, path, Some(a), fuel, next);
      LoopRaises(g, a, b, c, path + [next], fuel - 1);
    }
  }

  // In-place operations
  // ~~~~~~~~~~~~~~~~~~~

  /** A graph held in a dictionary that the `_graph` functions change in place. */
  class Digraph {
    var adj: Graph

    constructor (g: Graph)
      ensures adj == g
    {
      adj := g;
    }

    /** `add_node`: the node's successors become `container`, or none. */
    method AddNode(key: Tag, container: Option<set<Tag>>)
      modifies this
      ensures adj == old(adj)[key := container.GetOr({})]
      ensures forall n :: n in old(adj) && n != key ==> adj[n] == old(adj)[n]
    {
      adj := adj[key := container.GetOr({})];
    }

    /** `remove_node`: delete the node, then strip it from every remaining successor set. */
    method RemoveNode(key: Tag)
      modifies this
      ensures adj == Pruned(old(adj), key)
    {
      if key in adj {
        adj := adj - {key};
        var todo := adj.Keys;
        while todo != {}
          invariant todo <= adj.Keys == old(adj).Keys - {key}
          invariant forall n :: n in adj && n !in todo ==> adj[n] == old(adj)[n] - {key}
          invariant forall n :: n in todo ==> adj[n] == old(adj)[n]
          decreases todo
        {
          var n :| n in todo;
          if key in adj[n] {
            adj := adj[n := adj[n] - {key}];
          }
          todo := todo - {n};
        }
      }
    }

    /** `add_edge` */
    method AddEdge(from: Tag, to: Tag) returns (r: Outcome)
      modifies this
      ensures EdgeAdded(old(adj), from, to).Ok? ==> r == Done && adj == EdgeAdded(old(adj), from, to).value
      ensures EdgeAdded(old(adj), from, to).Err? ==> r == Raised(EdgeAdded(old(adj), from, to).error) && adj == old(adj)
    {
      if from == to {
        return Raised(Error(ValueError, "A node cannot be connected to itself"));
      }
      if from !in adj {
        return Raised(KeyErr(from));
      }
      adj := adj[from := adj[from] + {to}];
      r := Done;
    }

    /** `remove_edge`: KeyError when the node or the edge is missing. */
    method RemoveEdge(from: Tag, to: Tag) returns (r: Outcome)
      modifies this
      ensures from in old(adj) && to in old(adj)[from] ==>
        r == Done && adj == old(adj)[from := old(adj)[from] - {to}] && (from, to) !in Edges(adj)
      ensures from !in old(adj) ==> r == Raised(KeyErr(from)) && adj == old(adj)
      ensures from in old(adj) && to !in old(adj)[from] ==> r == Raised(KeyErr(to)) && adj == old(adj)
    {
      if from !in adj {
        return Raised(KeyErr(from));
      }
      if to !in adj[from] {
        return Raised(KeyErr(to));
      }
      adj := adj[from := adj[from] - {to}];
      r := Done;
    }

    /** `add_edges_from_iterable`: add each edge in turn; the first failure propagates. */
    method AddEdges(edges: seq<(Tag, Tag)>) returns (r: Outcome)
      modifies this
      ensures (adj, r) == EdgesAdded(old(adj), edges)
    {
      r := Done;
      var i := 0;
      while i < |edges|
        invariant 0 <= i <= |edges|
        invariant EdgesAdded(old(adj), edges) == EdgesAdded(adj, edges[i..])
        invariant r == Done
        decreases |edges| - i
      {
        assert edges[i..][1..] == edges[i + 1..];
        ghost var pre := adj;
        r := AddEdge(edges[i].0, edges[i].1);
        if r.Raised? {
          assert EdgesAdded(pre, edges[i..]) == (pre, r);
          return;
        }
        i := i + 1;
      }
      assert edges[i..] == [];
    }

    /**
     * `merge`: take over `other`'s nodes (the incoming entry wins on a shared tag, with a
     * warning), then add `newEdges` one by one until one fails.
     */
    method Merge(other: Graph, newEdges: Option<seq<(Tag, Tag)>>) returns (warned: bool, r: Outcome)
      modifies this
      ensures warned <==> exists k :: k in old(adj) && k in other
      ensures newEdges.None? ==> r == Done && adj == old(adj) + other
      ensures newEdges.Some? ==> (adj, r) == EdgesAdded(old(adj) + other, newEdges.value)
    {
      warned := exists k :: k in adj && k in other;
      adj := adj + other;
      r := Done;
      if newEdges.Some? {
        r := AddEdges(newEdges.value);
      }
    }

    /**
     * `_get_paths_util`: extend `prepended` with `key`; return it at a sink or at the
     * origin, otherwise recurse into each successor (in the set's own order) and append
     * every path handed back to the shared accumulator.
     */
    method PathsUtil(key: Tag, paths: seq<seq<Tag>>, prepended: seq<Tag>, start: Option<Tag>, fuel: nat)
      returns (ret: Option<seq<Tag>>, paths': seq<seq<Tag>>, raised: Option<Error>)
      ensures raised.Some? <==> Contribution(adj, prepended + [key], start, fuel).None?
      ensures raised.Some? ==> raised.value.kind in {KeyError, RecursionError}
      ensures raised.None? && ret.Some? ==>
        && key in adj && (adj[key] == {} || start == Some(key))
        && ret.value == prepended + [key] && paths' == paths
      ensures raised.None? && ret.None? ==>
        && key in adj && adj[key] != {} && start != Some(key)
        && |paths'| >= |paths| && paths'[..|paths|] == paths
        && forall p :: p in paths'[|paths|..] <==> p in Contribution(adj, prepended + [key], start, fuel).value
      decreases fuel, 0
    {
      var path := prepended + [key];
      paths' := paths;
      if key !in adj {
        return None, paths', Some(KeyErr(key));
      }
      var out := adj[key];
      if out == {} || start == Some(key) {
        return Some(path), paths', None;
      }
      if fuel == 0 {
        return None, paths', Some(Error(RecursionError, "maximum recursion depth exceeded"));
      }
      var origin := start.GetOr(key);
      var todo := out;
      while todo != {}
        invariant todo <= out
        invariant |paths'| >= |paths| && paths'[..|paths|] == paths
        invariant forall c :: c in out - todo ==> Via(adj, path, origin, fuel - 1, c).Some?
        invariant forall p :: p in paths'[|paths|..] <==> p in Gathered(adj, path, origin, fuel - 1, out - todo)
        decreases todo
      {
        var c :| c in todo;
        var e;
        paths', e := VisitSuccessor(c, path, origin, fuel - 1, paths, paths', out - todo);
        if e.Some? {
          return None, paths', e;
        }
        assert (out - todo) + {c} == out - (todo - {c});
        todo := todo - {c};
      }
      assert out - todo == out;
      ret := None;
      raised := None;
    }

    /**
     * One successor `c` of the last node of `path`: its call appends what it returns to the
     * accumulator `acc`, whose part beyond `base` holds what the successors `done` handed back.
     */
    method VisitSuccessor(c: Tag, path: seq<Tag>, origin: Tag, fuel: nat, base: seq<seq<Tag>>, acc: seq<seq<Tag>>, ghost done: set<Tag>)
      returns (acc': seq<seq<Tag>>, raised: Option<Error>)
      requires |path| > 0 && |acc| >= |base| && acc[..|base|] == base
      requires forall p :: p in acc[|base|..] <==> p in Gathered(adj, path, origin, fuel, done)
      ensures raised.Some? <==> Via(adj, path, origin, fuel, c).None?
      ensures raised.Some? ==> raised.value.kind in {KeyError, RecursionError}
      ensures raised.None? ==> |acc'| >= |base| && acc'[..|base|] == base
      ensures raised.None? ==> forall p :: p in acc'[|base|..] <==> p in Gathered(adj, path, origin, fuel, done + {c})
      decreases fuel, 1
    {
      var r, ps, e := PathsUtil(c, acc, path, Some(origin), fuel);
      acc', raised := ps, e;
      if e.Some? {
        return;
      }
      if r.Some? {
        assert Via(adj, path, origin, fuel, c) == Some({r.value});
        acc' := ps + [r.value];
      }
      assert acc'[..|acc|] == acc;
      assert acc'[..|base|] == acc[..|base|];
      assert acc'[|base|..] == acc[|base|..] + acc'[|acc|..];
      GatheredAdd(adj, path, origin, fuel, done, c);
    }

    /** `get_complete_paths` (unsorted): the paths accumulated by the top call. */
    method GetCompletePaths(key: Tag, fuel: nat) returns (r: Result<seq<seq<Tag>>>)
      ensures r.Err? <==> CompletePaths(adj, key, fuel).None?
      ensures r.Err? ==> r.error.kind in {KeyError, RecursionError}
      ensures r.Ok? ==> forall p :: p in r.value <==> p in CompletePaths(adj, key, fuel).value
    {
      var ret, paths, raised := PathsUtil(key, [], [], None, fuel);
      assert [] + [key] == [key];
      if raised.Some? {
        return Err(raised.value);
      }
      assert paths[0..] == paths;
      r := Ok(paths);
    }

    /** `get_all_complete_paths`: the complete paths of every node in turn; the first exception propagates. */
    method GetAllCompletePaths(fuel: nat) returns (r: Result<seq<seq<Tag>>>)
      ensures r.Err? <==> AllCompletePaths(adj, fuel).None?
      ensures r.Err? ==> r.error.kind in {KeyError, RecursionError}
      ensures r.Ok? ==> forall p :: p in r.value <==> p in AllCompletePaths(adj, fuel).value
    {
      var paths: seq<seq<Tag>> := [];
      var todo := adj.Keys;
      while todo != {}
        invariant todo <= adj.Keys
        invariant forall k :: k in adj.Keys - todo ==> CompletePaths(adj, k, fuel).Some?
        invariant forall p :: p in paths <==> p in PathsFrom(adj, fuel, adj.Keys - todo)
        decreases todo
      {
        var k :| k in todo;
        var rk := GetCompletePaths(k, fuel);
        if rk.Err? {
          return Err(rk.error);
        }
        PathsFromAdd(adj, fuel, adj.Keys - todo, k);
        assert (adj.Keys - todo) + {k} == adj.Keys - (todo - {k});
        paths := paths + rk.value;
        todo := todo - {k};
      }
      assert adj.Keys - todo == adj.Keys;
      r := Ok(paths);
    }

    /** `is_acyclic`: scan the complete paths for one that ends where it starts. */
    method IsAcyclicScan(fuel: nat) returns (r: Result<bool>)
      ensures r.Err? <==> IsAcyclic(adj, fuel).None?
      ensures r.Ok? ==> r.value == IsAcyclic(adj, fuel).value
    {
      var all := GetAllCompletePaths(fuel);
      if all.Err? {
        return Err(all.error);
      }
      var paths := all.value;
      AllCompletePathsShape(adj, fuel);
      var i := 0;
      while i < |paths|
        invariant 0 <= i <= |paths|
        invariant forall j :: 0 <= j < i ==> paths[j][0] != paths[j][|paths[j]| - 1]
        decreases |paths| - i
      {
        assert paths[i] in AllCompletePaths(adj, fuel).value;
        if paths[i][0] == paths[i][|paths[i]| - 1] {
          return Ok(false);
        }
        i := i + 1;
      }
      r := Ok(true);
    }
  }
}
