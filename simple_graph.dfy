/** The directed multigraph of lineage_core/utils/simple_graph.py: a node-attribute
    map plus an adjacency map of ordered destination lists (parallel edges kept).
    Python dicts remember insertion order, so the class keeps the key order of both
    maps next to them. The pure functions over those values come first; the class
    methods are proved against them. */
module SimpleGraph {
  import opened Outcomes
  import opened Text
  import opened Models

  type Edge = (int, int)

  /** `adj.get(n, [])`. */
  function AdjOf(adj: map<int, seq<int>>, n: int): seq<int>
  {
    if n in adj then adj[n] else []
  }

  /** `[(s, d) for d in ds]`. */
  function Row(s: int, ds: seq<int>): (r: seq<Edge>)
    ensures |r| == |ds|
    ensures forall i :: 0 <= i < |ds| ==> r[i] == (s, ds[i])
    decreases |ds|
  {
    if ds == [] then [] else Row(s, ds[..|ds| - 1]) + [(s, ds[|ds| - 1])]
  }

  /** `[(src, dst) for src, dsts in adj.items() for dst in dsts]` over the key order `keys`. */
  function FlattenEdges(keys: seq<int>, adj: map<int, seq<int>>): seq<Edge>
    decreases |keys|
  {
    if keys == [] then [] else FlattenEdges(keys[..|keys| - 1], adj) + Row(keys[|keys| - 1], AdjOf(adj, keys[|keys| - 1]))
  }

  /** Every destination of every list, in key order (what `in_degree` walks). */
  function DestsOf(keys: seq<int>, adj: map<int, seq<int>>): seq<int>
    decreases |keys|
  {
    if keys == [] then [] else DestsOf(keys[..|keys| - 1], adj) + AdjOf(adj, keys[|keys| - 1])
  }

  /** `sum(len(ds) for ds in adj.values())`. */
  function SumLens(keys: seq<int>, adj: map<int, seq<int>>): nat
    decreases |keys|
  {
    if keys == [] then 0 else SumLens(keys[..|keys| - 1], adj) + |AdjOf(adj, keys[|keys| - 1])|
  }

  /** The destinations of the edges out of `s`, in edge order. */
  function DestsFrom(es: seq<Edge>, s: int): seq<int>
    decreases |es|
  {
    if es == [] then []
    else DestsFrom(es[..|es| - 1], s) + (if es[|es| - 1].0 == s then [es[|es| - 1].1] else [])
  }

  /** The sources of a list of edges. */
  function Srcs(es: seq<Edge>): (r: seq<int>)
    ensures |r| == |es| && forall i :: 0 <= i < |es| ==> r[i] == es[i].0
  {
    seq(|es|, i requires 0 <= i < |es| => es[i].0)
  }

  /** `sum(counts[n] for n in ns)`. */
  function SumCounts(ns: seq<int>, m: multiset<int>): nat
    decreases |ns|
  {
    if ns == [] then 0 else SumCounts(ns[..|ns| - 1], m) + m[ns[|ns| - 1]]
  }

  function Elems(s: seq<int>): set<int>
  {
    set x | x in s
  }

  lemma {:induction false} RowCount(s: int, ds: seq<int>, e: Edge)
    ensures multiset(Row(s, ds))[e] == if e.0 == s then multiset(ds)[e.1] else 0
    decreases |ds|
  {
    if ds != [] {
      var init := ds[..|ds| - 1];
      RowCount(s, init, e);
      assert ds == init + [ds[|ds| - 1]];
    }
  }

  /** Edge multiplicity: `(s, d)` occurs in `edges()` as often as `d` occurs in `adj[s]`. */
  lemma {:induction false} EdgeMultiplicity(keys: seq<int>, adj: map<int, seq<int>>, e: Edge)
    requires NoDup(keys)
    ensures multiset(FlattenEdges(keys, adj))[e] == if e.0 in keys then multiset(AdjOf(adj, e.0))[e.1] else 0
    decreases |keys|
  {
    if keys != [] {
      var init, k := keys[..|keys| - 1], keys[|keys| - 1];
      assert NoDup(init);
      EdgeMultiplicity(init, adj, e);
      RowCount(k, AdjOf(adj, k), e);
      assert keys == init + [k];
      assert e.0 in keys <==> e.0 in init || e.0 == k;
      assert k !in init;
    }
  }

  lemma {:induction false} FlattenLength(keys: seq<int>, adj: map<int, seq<int>>)
    ensures |FlattenEdges(keys, adj)| == SumLens(keys, adj) == |DestsOf(keys, adj)|
    decreases |keys|
  {
    if keys != [] {
      FlattenLength(keys[..|keys| - 1], adj);
    }
  }

  lemma {:induction false} SumCountsAdd(ns: seq<int>, m: multiset<int>, x: int)
    requires NoDup(ns)
    ensures SumCounts(ns, m + multiset{x}) == SumCounts(ns, m) + (if x in ns then 1 else 0)
    decreases |ns|
  {
    if ns != [] {
      var init, k := ns[..|ns| - 1], ns[|ns| - 1];
      assert NoDup(init);
      SumCountsAdd(init, m, x);
      assert ns == init + [k];
      assert x in ns <==> x in init || x == k;
      assert k !in init;
    }
  }

  /** Counting every element of `xs` once per member of `ns` that it hits gives `|xs|`
      when `ns` is duplicate-free and holds every element of `xs`. */
  lemma {:induction false} SumCountsAll(ns: seq<int>, xs: seq<int>)
    requires NoDup(ns)
    requires forall i :: 0 <= i < |xs| ==> xs[i] in ns
    ensures SumCounts(ns, multiset(xs)) == |xs|
    decreases |xs|
  {
    if xs == [] {
      SumCountsEmpty(ns);
    } else {
      var init, x := xs[..|xs| - 1], xs[|xs| - 1];
      SumCountsAll(ns, init);
      assert xs == init + [x];
      assert multiset(xs) == multiset(init) + multiset{x};
      SumCountsAdd(ns, multiset(init), x);
    }
  }

  lemma {:induction false} SumCountsEmpty(ns: seq<int>)
    ensures SumCounts(ns, multiset{}) == 0
    decreases |ns|
  {
    if ns != [] {
      SumCountsEmpty(ns[..|ns| - 1]);
    }
  }

  lemma {:induction false} DestsOfMembers(keys: seq<int>, adj: map<int, seq<int>>, x: int)
    ensures x in DestsOf(keys, adj) <==> exists k :: k in keys && x in AdjOf(adj, k)
    decreases |keys|
  {
    if keys != [] {
      var init, k := keys[..|keys| - 1], keys[|keys| - 1];
      DestsOfMembers(init, adj, x);
      assert keys == init + [k];
      assert forall k' :: k' in keys <==> k' in init || k' == k;
    }
  }

  lemma {:induction false} SrcsOfFlatten(keys: seq<int>, adj: map<int, seq<int>>, n: int)
    requires NoDup(keys)
    ensures multiset(Srcs(FlattenEdges(keys, adj)))[n] == if n in keys then |AdjOf(adj, n)| else 0
    decreases |keys|
  {
    if keys != [] {
      var init, k := keys[..|keys| - 1], keys[|keys| - 1];
      assert NoDup(init);
      SrcsOfFlatten(init, adj, n);
      var a, b := FlattenEdges(init, adj), Row(k, AdjOf(adj, k));
      assert Srcs(a + b) == Srcs(a) + Srcs(b);
      RowSrcs(k, AdjOf(adj, k), n);
      assert keys == init + [k];
      assert n in keys <==> n in init || n == k;
      assert k !in init;
    }
  }

  lemma RowSrcs(s: int, ds: seq<int>, n: int)
    ensures multiset(Srcs(Row(s, ds)))[n] == if n == s then |ds| else 0
  {
    var r := Srcs(Row(s, ds));
    if n == s {
      assert r == seq(|ds|, i => s);
      ConstantCount(|ds|, s);
    } else {
      assert n !in r;
    }
  }

  lemma {:induction false} ConstantCount(k: nat, s: int)
    ensures multiset(seq(k, i => s))[s] == k
    decreases k
  {
    if k > 0 {
      ConstantCount(k - 1, s);
      assert seq(k, i => s) == seq(k - 1, i => s) + [s];
    }
  }

  lemma {:induction false} DestsFromCount(es: seq<Edge>, s: int, d: int)
    ensures multiset(DestsFrom(es, s))[d] == multiset(es)[(s, d)]
    decreases |es|
  {
    if es != [] {
      var init := es[..|es| - 1];
      DestsFromCount(init, s, d);
      assert es == init + [es[|es| - 1]];
    }
  }

  lemma {:induction false} DestsFromAppend(a: seq<Edge>, b: seq<Edge>, s: int)
    ensures DestsFrom(a + b, s) == DestsFrom(a, s) + DestsFrom(b, s)
    decreases |b|
  {
    if b != [] {
      var init := b[..|b| - 1];
      DestsFromAppend(a, init, s);
      assert a + b == (a + init) + [b[|b| - 1]];
      assert (a + b)[..|a + b| - 1] == a + init;
    } else {
      assert a + b == a;
    }
  }

  /** The paths the depth-first search of `all_simple_paths` yields, in order, from the
      partial path `path` ending at `current`. */
  function Dfs(nodes: set<int>, adj: map<int, seq<int>>, end: int, cutoff: int, current: int, path: seq<int>): seq<seq<int>>
    requires NoDup(path) && |path| > 0 && path[|path| - 1] == current
    requires forall i :: 0 <= i < |path| ==> path[i] in nodes
    decreases |nodes - Elems(path)|, 1, 0
  {
    if current == end then [path]
    else if |path| > cutoff then []
    else DfsNeighbors(nodes, adj, end, cutoff, path, AdjOf(adj, current))
  }

  function DfsNeighbors(nodes: set<int>, adj: map<int, seq<int>>, end: int, cutoff: int, path: seq<int>, nbrs: seq<int>): seq<seq<int>>
    requires NoDup(path) && |path| > 0
    requires forall i :: 0 <= i < |path| ==> path[i] in nodes
    decreases |nodes - Elems(path)|, 0, |nbrs|
  {
    if nbrs == [] then []
    else
      var nb := nbrs[0];
      (if nb in nodes && nb !in path then
         ExtendShrinks(nodes, path, nb);
         Dfs(nodes, adj, end, cutoff, nb, path + [nb])
       else [])
      + DfsNeighbors(nodes, adj, end, cutoff, path, nbrs[1..])
  }

  lemma ExtendShrinks(nodes: set<int>, path: seq<int>, nb: int)
    requires nb in nodes && nb !in path
    requires NoDup(path)
    ensures NoDup(path + [nb])
    ensures |nodes - Elems(path + [nb])| < |nodes - Elems(path)|
  {
    assert Elems(path + [nb]) == Elems(path) + {nb};
    assert nodes - Elems(path) == (nodes - Elems(path + [nb])) + {nb};
  }

  /** Consecutive nodes of `p` are adjacency edges. */
  predicate IsWalk(adj: map<int, seq<int>>, p: seq<int>)
  {
    forall i :: 0 <= i < |p| - 1 ==> p[i + 1] in AdjOf(adj, p[i])
  }

  /** What every yielded path satisfies, for a search started from `path`. */
  predicate PathShape(nodes: set<int>, adj: map<int, seq<int>>, end: int, cutoff: int, path: seq<int>, p: seq<int>)
  {
    && |path| <= |p| && 0 < |p| && p[..|path|] == path
    && p[|p| - 1] == end
    && NoDup(p)
    && IsWalk(adj, p)
    && (forall i :: 0 <= i < |p| ==> p[i] in nodes)
    && (|p| == |path| || |p| <= cutoff + 1)
  }

  lemma {:induction false} DfsShape(nodes: set<int>, adj: map<int, seq<int>>, end: int, cutoff: int, current: int, path: seq<int>)
    requires NoDup(path) && |path| > 0 && path[|path| - 1] == current
    requires forall i :: 0 <= i < |path| ==> path[i] in nodes
    requires IsWalk(adj, path)
    ensures forall p :: p in Dfs(nodes, adj, end, cutoff, current, path) ==> PathShape(nodes, adj, end, cutoff, path, p)
    decreases |nodes - Elems(path)|, 1, 0
  {
    if current == end {
    } else if |path| > cutoff {
    } else {
      DfsNeighborsShape(nodes, adj, end, cutoff, path, AdjOf(adj, current));
    }
  }

  lemma {:induction false} DfsNeighborsShape(nodes: set<int>, adj: map<int, seq<int>>, end: int, cutoff: int, path: seq<int>, nbrs: seq<int>)
    requires NoDup(path) && |path| > 0
    requires forall i :: 0 <= i < |path| ==> path[i] in nodes
    requires IsWalk(adj, path)
    requires |path| <= cutoff
    requires forall x :: x in nbrs ==> x in AdjOf(adj, path[|path| - 1])
    ensures forall p :: p in DfsNeighbors(nodes, adj, end, cutoff, path, nbrs) ==> PathShape(nodes, adj, end, cutoff, path, p)
    decreases |nodes - Elems(path)|, 0, |nbrs|
  {
    if nbrs != [] {
      var nb := nbrs[0];
      assert forall x :: x in nbrs[1..] ==> x in nbrs;
      DfsNeighborsShape(nodes, adj, end, cutoff, path, nbrs[1..]);
      if nb in nodes && nb !in path {
        ExtendShrinks(nodes, path, nb);
        var path' := path + [nb];
        assert nb in nbrs;
        WalkExtend(adj, path, nb);
        DfsShape(nodes, adj, end, cutoff, nb, path');
        forall p | p in Dfs(nodes, adj, end, cutoff, nb, path')
          ensures PathShape(nodes, adj, end, cutoff, path, p)
        {
          ShapeRetract(nodes, adj, end, cutoff, path, nb, p);
        }
      }
    }
  }

  lemma WalkExtend(adj: map<int, seq<int>>, path: seq<int>, nb: int)
    requires IsWalk(adj, path) && |path| > 0 && nb in AdjOf(adj, path[|path| - 1])
    ensures IsWalk(adj, path + [nb])
  {
    var path' := path + [nb];
    forall i | 0 <= i < |path'| - 1 ensures path'[i + 1] in AdjOf(adj, path'[i]) {
      if i < |path| - 1 {
        assert path'[i] == path[i] && path'[i + 1] == path[i + 1];
      } else {
        assert path'[i] == path[|path| - 1] && path'[i + 1] == nb;
      }
    }
  }

  /** A path yielded below `path + [nb]` is also one below `path`. */
  lemma ShapeRetract(nodes: set<int>, adj: map<int, seq<int>>, end: int, cutoff: int, path: seq<int>, nb: int, p: seq<int>)
    requires |path| <= cutoff
    requires PathShape(nodes, adj, end, cutoff, path + [nb], p)
    ensures PathShape(nodes, adj, end, cutoff, path, p)
  {
    assert p[..|path| + 1][..|path|] == p[..|path|];
    assert (path + [nb])[..|path|] == path;
  }

  class SimpleDiGraph {
    /** Keys of `_nodes` in insertion order, and the attribute map itself. */
    var nodeOrder: seq<int>
    var attrs: map<int, Attrs>
    /** Keys of `adj` in insertion order, and the adjacency lists. */
    var adjOrder: seq<int>
    var adj: map<int, seq<int>>

    ghost predicate Valid()
      reads this
    {
      && NoDup(nodeOrder) && (forall n :: n in attrs <==> n in nodeOrder)
      && NoDup(adjOrder) && (forall n :: n in adj <==> n in adjOrder)
      && (forall n :: n in adj ==> n in attrs)
      && (forall n, d :: n in adj && d in adj[n] ==> d in attrs)
      // a key of `adj` is only ever created by `add_edge` appending to it
      && (forall n :: n in adj ==> |adj[n]| > 0)
    }

    constructor ()
      ensures Valid()
      ensures nodeOrder == [] && attrs == map[] && adjOrder == [] && adj == map[]
    {
      nodeOrder, attrs, adjOrder, adj := [], map[], [], map[];
    }

    /** `add_node`: registers the id (keeping its first position) and overwrites its attributes. */
    method AddNode(id: int, a: Attrs)
      requires Valid()
      modifies this
      ensures Valid()
      ensures attrs == old(attrs)[id := a]
      ensures nodeOrder == if id in old(attrs) then old(nodeOrder) else old(nodeOrder) + [id]
      ensures adj == old(adj) && adjOrder == old(adjOrder)
    {
      if id !in attrs {
        nodeOrder := nodeOrder + [id];
      }
      attrs := attrs[id := a];
    }

    /** `add_edge`: appends `dst` to `adj[src]`; an unregistered endpoint is a ValueError
        and leaves the graph as it was. */
    method AddEdge(src: int, dst: int) returns (r: Result<()>)
      requires Valid()
      modifies this
      ensures Valid()
      ensures src !in old(attrs) ==>
        r == Err(ValueError("Source node " + IntToString(src) + " does not exist in the graph."))
      ensures src in old(attrs) && dst !in old(attrs) ==>
        r == Err(ValueError("Destination node " + IntToString(dst) + " does not exist in the graph."))
      ensures r.Err? ==> adj == old(adj) && adjOrder == old(adjOrder)
      ensures r.Ok? <==> src in old(attrs) && dst in old(attrs)
      ensures r.Ok? ==> adj == old(adj)[src := AdjOf(old(adj), src) + [dst]]
      ensures r.Ok? ==> adjOrder == if src in old(adj) then old(adjOrder) else old(adjOrder) + [src]
      ensures attrs == old(attrs) && nodeOrder == old(nodeOrder)
    {
      if src !in attrs {
        return Err(ValueError("Source node " + IntToString(src) + " does not exist in the graph."));
      }
      if dst !in attrs {
        return Err(ValueError("Destination node " + IntToString(dst) + " does not exist in the graph."));
      }
      if src !in adj {
        adjOrder := adjOrder + [src];
      }
      adj := adj[src := AdjOf(adj, src) + [dst]];
      r := Ok(());
    }

    /** `nodes()`: the registered ids in insertion order. */
    function Nodes(): (r: seq<int>)
      reads this
      requires Valid()
      ensures NoDup(r) && forall n :: n in r <==> n in attrs
    {
      nodeOrder
    }

    /** `get_node`: the attribute bag, or a KeyError for an unknown id. */
    function GetNode(id: int): (r: Result<Attrs>)
      reads this
      ensures r.Ok? <==> id in attrs
      ensures r.Ok? ==> r.value == attrs[id]
      ensures r.Err? ==> r.error == KeyError("Node with ID " + IntToString(id) + " not found.")
    {
      if id !in attrs then Err(KeyError("Node with ID " + IntToString(id) + " not found."))
      else Ok(attrs[id])
    }

    /** `edges()`. */
    function Edges(): seq<Edge>
      reads this
    {
      FlattenEdges(adjOrder, adj)
    }

    /** `in_degree()`: every registered node gets the number of times it occurs as a
        destination (parallel edges counted), 0 when it never does. */
    method InDegree() returns (deg: map<int, nat>)
      requires Valid()
      ensures deg.Keys == attrs.Keys
      ensures forall n :: n in deg ==> deg[n] == multiset(DestsOf(adjOrder, adj))[n]
    {
      deg := map[];
      var i := 0;
      while i < |adjOrder|
        invariant 0 <= i <= |adjOrder|
        invariant forall n :: n in deg ==> n in attrs
        invariant CountsOf(deg, DestsOf(adjOrder[..i], adj))
      {
        var src := adjOrder[i];
        ghost var before := DestsOf(adjOrder[..i], adj);
        deg := CountInto(deg, adj[src], before, attrs.Keys);
        assert adjOrder[..i + 1][..i] == adjOrder[..i];
        assert DestsOf(adjOrder[..i + 1], adj) == before + adj[src];
        i := i + 1;
      }
      assert adjOrder[..i] == adjOrder;
      deg := ZeroFill(deg, nodeOrder, DestsOf(adjOrder, adj), attrs.Keys);
    }

    /** `out_degree()`: the length of each registered node's list, 0 when it has none. */
    function OutDegree(): (deg: map<int, nat>)
      reads this
      requires Valid()
      ensures deg.Keys == attrs.Keys
      ensures forall n :: n in deg ==> deg[n] == multiset(Srcs(Edges()))[n]
    {
      var m := map n | n in attrs :: |AdjOf(adj, n)|;
      assert forall n :: n in m ==> m[n] == multiset(Srcs(Edges()))[n] by {
        forall n | n in m ensures m[n] == multiset(Srcs(Edges()))[n] {
          SrcsOfFlatten(adjOrder, adj, n);
        }
      }
      m
    }

    /** `number_of_nodes()`. */
    function NumberOfNodes(): (r: nat)
      reads this
      requires Valid()
      ensures r == |nodeOrder|
    {
      NoDupCard(nodeOrder, attrs.Keys);
      |attrs|
    }

    /** `number_of_edges()`: equals the length of `edges()`. */
    function NumberOfEdges(): (r: nat)
      reads this
      ensures r == |Edges()|
    {
      FlattenLength(adjOrder, adj);
      SumLens(adjOrder, adj)
    }

    /** `sources()`: adjacency keys that are nobody's destination. */
    function Sources(): (r: set<int>)
      reads this
      requires Valid()
      ensures forall n :: n in r <==> n in adj && n !in DestsOf(adjOrder, adj)
    {
      var targets := set k, t | k in adj && t in adj[k] :: t;
      assert forall n :: n in targets <==> n in DestsOf(adjOrder, adj) by {
        forall n ensures n in targets <==> n in DestsOf(adjOrder, adj) {
          DestsOfMembers(adjOrder, adj, n);
          if n in targets {
            var k :| k in adj && n in adj[k];
            assert k in adjOrder;
          }
        }
      }
      adj.Keys - targets
    }

    /** `sinks()`: adjacency keys whose list is empty. */
    function Sinks(): set<int>
      reads this
    {
      set n | n in adj && adj[n] == []
    }

    /** `all_simple_paths(start, end, cutoff)`: nothing unless both ends are registered. */
    function AllSimplePaths(start: int, end: int, cutoff: int): seq<seq<int>>
      reads this
    {
      if start !in attrs || end !in attrs then []
      else Dfs(attrs.Keys, adj, end, cutoff, start, [start])
    }
  }

  /** `deg` holds the occurrence count of every element of `xs`, and nothing else. */
  ghost predicate CountsOf(deg: map<int, nat>, xs: seq<int>)
  {
    && (forall n :: n in deg ==> deg[n] == multiset(xs)[n])
    && (forall n :: n !in deg ==> multiset(xs)[n] == 0)
  }

  /** The inner loop of `in_degree`: one increment per destination of one list. */
  method CountInto(deg0: map<int, nat>, dsts: seq<int>, ghost before: seq<int>, ghost within: set<int>) returns (deg: map<int, nat>)
    requires CountsOf(deg0, before)
    requires forall n :: n in deg0 ==> n in within
    requires forall d :: d in dsts ==> d in within
    ensures CountsOf(deg, before + dsts)
    ensures forall n :: n in deg ==> n in within
  {
    deg := deg0;
    var j := 0;
    while j < |dsts|
      invariant 0 <= j <= |dsts|
      invariant forall n :: n in deg ==> n in within
      invariant CountsOf(deg, before + dsts[..j])
    {
      var d := dsts[j];
      assert before + dsts[..j + 1] == (before + dsts[..j]) + [d];
      deg := deg[d := (if d in deg then deg[d] else 0) + 1];
      j := j + 1;
    }
    assert dsts[..j] == dsts;
  }

  /** The final loop of `in_degree`: every registered node gets a count, 0 by default. */
  method ZeroFill(deg0: map<int, nat>, ns: seq<int>, ghost xs: seq<int>, ghost within: set<int>) returns (deg: map<int, nat>)
    requires CountsOf(deg0, xs)
    requires forall n :: n in deg0 ==> n in within
    requires forall n :: n in within <==> n in ns
    ensures deg.Keys == within
    ensures forall n :: n in deg ==> deg[n] == multiset(xs)[n]
  {
    deg := deg0;
    var k := 0;
    while k < |ns|
      invariant 0 <= k <= |ns|
      invariant forall n :: n in deg ==> n in within
      invariant forall n :: n in ns[..k] ==> n in deg
      invariant CountsOf(deg, xs)
    {
      var n := ns[k];
      if n !in deg {
        deg := deg[n := 0];
      }
      assert ns[..k + 1] == ns[..k] + [n];
      k := k + 1;
    }
    assert ns[..k] == ns;
    forall n ensures n in deg.Keys <==> n in within {
      if n in within {
        assert n in ns[..k];
      }
    }
    assert deg.Keys == within;
  }

  lemma {:induction false} NoDupCard(s: seq<int>, keys: set<int>)
    requires NoDup(s) && forall n :: n in keys <==> n in s
    ensures |keys| == |s|
    decreases |s|
  {
    if s != [] {
      var init, x := s[..|s| - 1], s[|s| - 1];
      assert NoDup(init);
      assert s == init + [x];
      assert x !in init;
      NoDupCard(init, keys - {x});
    } else {
      forall n ensures n !in keys {
        assert n !in s;
      }
      assert keys == {};
    }
  }

  /** `number_of_edges()` is also the sum of the out-degrees and the sum of the
      in-degrees over the registered nodes. */
  lemma DegreeSums(g: SimpleDiGraph)
    requires g.Valid()
    ensures SumCounts(g.nodeOrder, multiset(Srcs(g.Edges()))) == g.NumberOfEdges()
    ensures SumCounts(g.nodeOrder, multiset(DestsOf(g.adjOrder, g.adj))) == g.NumberOfEdges()
  {
    FlattenLength(g.adjOrder, g.adj);
    var es := g.Edges();
    forall i | 0 <= i < |Srcs(es)| ensures Srcs(es)[i] in g.nodeOrder {
      assert multiset(Srcs(es))[Srcs(es)[i]] > 0;
      SrcsOfFlatten(g.adjOrder, g.adj, Srcs(es)[i]);
    }
    SumCountsAll(g.nodeOrder, Srcs(es));
    var ds := DestsOf(g.adjOrder, g.adj);
    forall i | 0 <= i < |ds| ensures ds[i] in g.nodeOrder {
      DestsOfMembers(g.adjOrder, g.adj, ds[i]);
    }
    SumCountsAll(g.nodeOrder, ds);
  }

  /** Every adjacency key has a non-empty list, so `sinks()` is always empty and every
      member of `sources()` has an outgoing edge and no incoming one. */
  lemma SourcesAndSinksOfValid(g: SimpleDiGraph)
    requires g.Valid()
    ensures g.Sinks() == {}
    ensures forall n :: n in g.Sources() ==> n in g.attrs && |AdjOf(g.adj, n)| > 0
  {
    forall n ensures n !in g.Sinks() {
      if n in g.adj {
        assert |g.adj[n]| > 0;
      }
    }
    assert g.Sinks() == {};
  }

  /** The shape of every path `all_simple_paths` yields. */
  lemma AllSimplePathsShape(g: SimpleDiGraph, start: int, end: int, cutoff: int, p: seq<int>)
    requires g.Valid()
    requires p in g.AllSimplePaths(start, end, cutoff)
    ensures start in g.attrs && end in g.attrs
    ensures |p| >= 1 && p[0] == start && p[|p| - 1] == end
    ensures forall i :: 0 <= i < |p| - 1 ==> p[i] != end
    ensures NoDup(p) && IsWalk(g.adj, p)
    ensures forall i :: 0 <= i < |p| ==> p[i] in g.attrs
    ensures cutoff >= 0 ==> |p| <= cutoff + 1
  {
    DfsShape(g.attrs.Keys, g.adj, end, cutoff, start, [start]);
    assert PathShape(g.attrs.Keys, g.adj, end, cutoff, [start], p);
    assert p[..1] == [start];
  }

  /** From a node to itself the only path is the node alone. */
  lemma AllSimplePathsSelf(g: SimpleDiGraph, n: int, cutoff: int)
    requires n in g.attrs
    ensures g.AllSimplePaths(n, n, cutoff) == [[n]]
  {
  }

  /** Two parallel edges from `a` to `b` give the path `[a, b]` twice. */
  lemma ParallelEdgesRepeatPaths(g: SimpleDiGraph, a: int, b: int, cutoff: int)
    requires a in g.attrs && b in g.attrs && a != b && cutoff >= 1
    requires AdjOf(g.adj, a) == [b, b]
    ensures g.AllSimplePaths(a, b, cutoff) == [[a, b], [a, b]]
  {
    var nodes := g.attrs.Keys;
    var nbrs := AdjOf(g.adj, a);
    assert [a] + [b] == [a, b];
    assert Dfs(nodes, g.adj, b, cutoff, b, [a, b]) == [[a, b]];
    assert nbrs[1..] == [b] && nbrs[1..][1..] == [];
    assert DfsNeighbors(nodes, g.adj, b, cutoff, [a], nbrs[1..]) == [[a, b]];
    assert DfsNeighbors(nodes, g.adj, b, cutoff, [a], nbrs) == [[a, b], [a, b]];
  }
}
