/** Graph construction and trigger collapsing (lineage_core/services/lineage_graph_builder.py). */
module GraphBuilder {
  import opened Outcomes
  import opened Text
  import opened Models
  import opened SimpleGraph

  // ---------------------------------------------------------------- build_graph

  /** The distinct node ids in first-occurrence order (the key order of `_nodes`). */
  function FirstIds(nodes: seq<Node>): seq<int>
    decreases |nodes|
  {
    if nodes == [] then []
    else
      var init := nodes[..|nodes| - 1];
      FirstIds(init) + (if nodes[|nodes| - 1].id in NodeIds(init) then [] else [nodes[|nodes| - 1].id])
  }

  function NodeIds(nodes: seq<Node>): set<int>
  {
    set i | 0 <= i < |nodes| :: nodes[i].id
  }

  /** The attribute bag of each id: the dump of the last node with that id. */
  function DumpMap(nodes: seq<Node>): map<int, Attrs>
    decreases |nodes|
  {
    if nodes == [] then map[]
    else DumpMap(nodes[..|nodes| - 1])[nodes[|nodes| - 1].id := NodeDump(nodes[|nodes| - 1])]
  }

  /** `int()` of the two endpoint ids of one edge, source first. */
  function ParseEdge(e: LineageEdge): Result<Edge>
  {
    var src := ParseInt(e.fromEntity.id);
    if src.Err? then Err(src.error)
    else
      var dst := ParseInt(e.toEntity.id);
      if dst.Err? then Err(dst.error)
      else Ok((src.value, dst.value))
  }

  /** Every edge parsed, failing at the first bad id. */
  function ParseEdges(edges: seq<LineageEdge>): Result<seq<Edge>>
    decreases |edges|
  {
    if edges == [] then Ok([])
    else
      var prefix := ParseEdges(edges[..|edges| - 1]);
      if prefix.Err? then prefix
      else
        var e := ParseEdge(edges[|edges| - 1]);
        if e.Err? then Err(e.error)
        else Ok(prefix.value + [e.value])
  }

  /** The edges whose two endpoints are both in `ids`, in order. */
  function Kept(es: seq<Edge>, ids: set<int>): (r: seq<Edge>)
    ensures forall e :: e in r <==> e in es && e.0 in ids && e.1 in ids
    decreases |es|
  {
    if es == [] then []
    else
      var e := es[|es| - 1];
      Kept(es[..|es| - 1], ids) + (if e.0 in ids && e.1 in ids then [e] else [])
  }

  /** The sources of `es` in the order in which each first appears. */
  function FirstSources(es: seq<Edge>): seq<int>
    decreases |es|
  {
    if es == [] then []
    else
      var init := es[..|es| - 1];
      FirstSources(init) + (if DestsFrom(init, es[|es| - 1].0) == [] then [es[|es| - 1].0] else [])
  }

  lemma NodeIdsSnoc(nodes: seq<Node>, i: nat)
    requires i < |nodes|
    ensures NodeIds(nodes[..i + 1]) == NodeIds(nodes[..i]) + {nodes[i].id}
  {
    var a, b := nodes[..i], nodes[..i + 1];
    assert b == a + [nodes[i]];
    forall x ensures x in NodeIds(b) <==> x in NodeIds(a) + {nodes[i].id} {
      if x in NodeIds(b) {
        var k :| 0 <= k < |b| && b[k].id == x;
        if k < i { assert a[k] == b[k]; }
      }
      if x in NodeIds(a) {
        var k :| 0 <= k < |a| && a[k].id == x;
        assert b[k] == a[k];
      }
    }
  }

  lemma {:induction false} ParseEdgesSticky(edges: seq<LineageEdge>, k: nat)
    requires k <= |edges|
    requires ParseEdges(edges[..k]).Err?
    ensures ParseEdges(edges) == ParseEdges(edges[..k])
    decreases |edges| - k
  {
    if k < |edges| {
      assert edges[..k + 1][..k] == edges[..k];
      ParseEdgesSticky(edges, k + 1);
    } else {
      assert edges[..k] == edges;
    }
  }

  /** `h.adj` holds, for every source, the destinations of the edge list `es` in order. */
  ghost predicate Mirrors(adj: map<int, seq<int>>, es: seq<Edge>)
  {
    forall x :: AdjOf(adj, x) == DestsFrom(es, x)
  }

  lemma MirrorsAppend(adj: map<int, seq<int>>, es: seq<Edge>, p: int, q: int)
    requires Mirrors(adj, es)
    ensures Mirrors(adj[p := AdjOf(adj, p) + [q]], es + [(p, q)])
  {
    var es' := es + [(p, q)];
    assert es'[..|es'| - 1] == es;
    forall x ensures AdjOf(adj[p := AdjOf(adj, p) + [q]], x) == DestsFrom(es', x) {
    }
  }

  /** The key order of `adj` is the first-appearance order of the sources of `es`. */
  ghost predicate Tracks(adjOrder: seq<int>, adj: map<int, seq<int>>, es: seq<Edge>)
  {
    Mirrors(adj, es) && adjOrder == FirstSources(es)
  }

  lemma TracksAppend(adjOrder: seq<int>, adj: map<int, seq<int>>, es: seq<Edge>, p: int, q: int)
    requires Tracks(adjOrder, adj, es)
    requires forall n :: n in adj ==> |adj[n]| > 0
    ensures Tracks(if p in adj then adjOrder else adjOrder + [p], adj[p := AdjOf(adj, p) + [q]], es + [(p, q)])
  {
    MirrorsAppend(adj, es, p, q);
    var es' := es + [(p, q)];
    assert es'[..|es'| - 1] == es;
    assert p in adj <==> DestsFrom(es, p) != [];
  }

  lemma ParseStepErr(edges: seq<LineageEdge>, j: nat)
    requires j < |edges| && ParseEdges(edges[..j]).Ok? && ParseEdge(edges[j]).Err?
    ensures ParseEdges(edges) == Err(ParseEdge(edges[j]).error)
  {
    assert edges[..j + 1][..j] == edges[..j];
    ParseEdgesSticky(edges, j + 1);
  }

  lemma KeptStep(edges: seq<LineageEdge>, j: nat, ids: set<int>)
    requires j < |edges| && ParseEdges(edges[..j]).Ok? && ParseEdge(edges[j]).Ok?
    ensures ParseEdges(edges[..j + 1]).Ok?
    ensures var e := ParseEdge(edges[j]).value;
      Kept(ParseEdges(edges[..j + 1]).value, ids)
        == Kept(ParseEdges(edges[..j]).value, ids) + (if e.0 in ids && e.1 in ids then [e] else [])
  {
    assert edges[..j + 1][..j] == edges[..j];
    var parsed' := ParseEdges(edges[..j + 1]).value;
    assert parsed' == ParseEdges(edges[..j]).value + [ParseEdge(edges[j]).value];
    assert parsed'[..|parsed'| - 1] == ParseEdges(edges[..j]).value;
  }

  /** The node loop of `build_graph`. */
  method AddNodes(g: SimpleDiGraph, nodes: seq<Node>)
    requires g.Valid() && g.nodeOrder == [] && g.attrs == map[] && g.adj == map[] && g.adjOrder == []
    modifies g
    ensures g.Valid() && g.adj == map[] && g.adjOrder == []
    ensures g.nodeOrder == FirstIds(nodes) && g.attrs == DumpMap(nodes) && g.attrs.Keys == NodeIds(nodes)
  {
    for i := 0 to |nodes|
      invariant g.Valid() && g.adj == map[] && g.adjOrder == []
      invariant g.nodeOrder == FirstIds(nodes[..i]) && g.attrs == DumpMap(nodes[..i])
      invariant g.attrs.Keys == NodeIds(nodes[..i])
    {
      assert nodes[..i + 1][..i] == nodes[..i];
      NodeIdsSnoc(nodes, i);
      g.AddNode(nodes[i].id, NodeDump(nodes[i]));
    }
    assert nodes[..|nodes|] == nodes;
  }

  /** The edge loop of `build_graph`. */
  method AddEdges(g: SimpleDiGraph, edges: seq<LineageEdge>, ids: set<int>) returns (r: Result<()>)
    requires g.Valid() && g.adj == map[] && g.adjOrder == [] && g.attrs.Keys == ids
    modifies g
    ensures g.Valid() && g.nodeOrder == old(g.nodeOrder) && g.attrs == old(g.attrs)
    ensures ParseEdges(edges).Err? ==> r == Err(ParseEdges(edges).error)
    ensures ParseEdges(edges).Ok? ==> r.Ok? && Tracks(g.adjOrder, g.adj, Kept(ParseEdges(edges).value, ids))
  {
    for j := 0 to |edges|
      invariant g.Valid() && g.nodeOrder == old(g.nodeOrder) && g.attrs == old(g.attrs)
      invariant ParseEdges(edges[..j]).Ok?
      invariant Tracks(g.adjOrder, g.adj, Kept(ParseEdges(edges[..j]).value, ids))
    {
      ghost var parsed := ParseEdges(edges[..j]).value;
      ghost var before := Kept(parsed, ids);
      var src := ParseInt(edges[j].fromEntity.id);
      if src.Err? {
        assert ParseEdge(edges[j]) == Err(src.error);
        ParseStepErr(edges, j);
        return Err(src.error);
      }
      var dst := ParseInt(edges[j].toEntity.id);
      if dst.Err? {
        assert ParseEdge(edges[j]) == Err(dst.error);
        ParseStepErr(edges, j);
        return Err(dst.error);
      }
      assert ParseEdge(edges[j]) == Ok((src.value, dst.value));
      KeptStep(edges, j, ids);
      ghost var after := Kept(ParseEdges(edges[..j + 1]).value, ids);
      if src.value in ids && dst.value in ids {
        assert after == before + [(src.value, dst.value)];
        TracksAppend(g.adjOrder, g.adj, before, src.value, dst.value);
        var _ := g.AddEdge(src.value, dst.value);
        assert Tracks(g.adjOrder, g.adj, after);
      } else {
        assert after == before;
      }
    }
    assert edges[..|edges|] == edges;
    r := Ok(());
  }

  /** `build_graph`: every input node, then every edge whose parsed endpoints are both
      input ids, in input order and multiplicity; a non-numeric endpoint id aborts with
      the ValueError of `int()`. Trigger collapsing is requested only with
      `collapse_triggers` and an operator id, and then finds nothing to collapse, because
      dumped nodes carry no `operator_id`. */
  method BuildGraph(nodes: seq<Node>, edges: seq<LineageEdge>, collapseTriggers: bool, triggerOperatorId: Option<int>)
    returns (r: Result<SimpleDiGraph>)
    ensures ParseEdges(edges).Err? ==> r == Err(ParseEdges(edges).error)
    ensures ParseEdges(edges).Ok? ==> r.Ok?
    ensures r.Ok? ==> ParseEdges(edges).Ok? && r.value.Valid()
    ensures r.Ok? ==> r.value.nodeOrder == FirstIds(nodes) && r.value.attrs == DumpMap(nodes)
    ensures r.Ok? ==> r.value.attrs.Keys == NodeIds(nodes)
    ensures r.Ok? ==> Tracks(r.value.adjOrder, r.value.adj, Kept(ParseEdges(edges).value, NodeIds(nodes)))
  {
    var g := new SimpleDiGraph();
    AddNodes(g, nodes);
    var added := AddEdges(g, edges, NodeIds(nodes));
    if added.Err? {
      return Err(added.error);
    }
    if collapseTriggers && triggerOperatorId.Some? {
      DumpMapNoOperator(nodes);
      NoTriggersInDump(g, triggerOperatorId.value);
      g := CollapseTriggerNodes(g, triggerOperatorId.value);
    }
    r := Ok(g);
  }

  lemma {:induction false} DumpMapNoOperator(nodes: seq<Node>)
    ensures forall n :: n in DumpMap(nodes) ==> "operator_id" !in DumpMap(nodes)[n]
    ensures DumpMap(nodes).Keys == NodeIds(nodes)
    decreases |nodes|
  {
    if nodes != [] {
      DumpMapNoOperator(nodes[..|nodes| - 1]);
      NodeIdsSnoc(nodes, |nodes| - 1);
      assert nodes[..|nodes|] == nodes;
    }
  }

  lemma NoTriggersInDump(g: SimpleDiGraph, tid: int)
    requires forall n :: n in g.attrs ==> "operator_id" !in g.attrs[n]
    ensures TriggerList(g.nodeOrder, g.attrs, tid) == []
  {
    TriggerListNone(g.nodeOrder, g.attrs, tid);
  }

  lemma {:induction false} TriggerListNone(ns: seq<int>, attrs: map<int, Attrs>, tid: int)
    requires forall n :: n in attrs ==> "operator_id" !in attrs[n]
    ensures TriggerList(ns, attrs, tid) == []
    decreases |ns|
  {
    if ns != [] {
      TriggerListNone(ns[..|ns| - 1], attrs, tid);
    }
  }

  /** What `build_graph` computes on nodes and edges alone: the edge list of the result
      is the kept edges, with both endpoints among the input ids. */
  lemma BuildGraphEdges(nodes: seq<Node>, edges: seq<LineageEdge>, g: SimpleDiGraph, e: Edge)
    requires ParseEdges(edges).Ok? && g.Valid()
    requires g.attrs.Keys == NodeIds(nodes)
    requires Mirrors(g.adj, Kept(ParseEdges(edges).value, NodeIds(nodes)))
    ensures multiset(g.Edges())[e] == if e.0 in NodeIds(nodes) && e.1 in NodeIds(nodes) then multiset(ParseEdges(edges).value)[e] else 0
  {
    var es := ParseEdges(edges).value;
    var ids := NodeIds(nodes);
    EdgeMultiplicity(g.adjOrder, g.adj, e);
    DestsFromCount(Kept(es, ids), e.0, e.1);
    KeptCount(es, ids, e);
    if e.0 !in g.adjOrder {
      assert AdjOf(g.adj, e.0) == [];
    }
  }

  lemma {:induction false} KeptCount(es: seq<Edge>, ids: set<int>, e: Edge)
    ensures multiset(Kept(es, ids))[e] == if e.0 in ids && e.1 in ids then multiset(es)[e] else 0
    decreases |es|
  {
    if es != [] {
      KeptCount(es[..|es| - 1], ids, e);
      assert es == es[..|es| - 1] + [es[|es| - 1]];
    }
  }

  // ---------------------------------------------------------------- find_sources_and_sinks

  /** The members of `ns` whose degree (0 when absent) is 0, in order. */
  function ZeroDegree(ns: seq<int>, deg: map<int, nat>): (r: seq<int>)
    ensures forall n :: n in r <==> n in ns && (n !in deg || deg[n] == 0)
    decreases |ns|
  {
    if ns == [] then []
    else
      var n := ns[|ns| - 1];
      ZeroDegree(ns[..|ns| - 1], deg) + (if n !in deg || deg[n] == 0 then [n] else [])
  }

  /** `find_sources_and_sinks`: the registered nodes with no incoming edge and those with
      no outgoing edge, both in `nodes()` order. */
  method FindSourcesAndSinks(g: SimpleDiGraph) returns (sources: seq<int>, sinks: seq<int>)
    requires g.Valid()
    ensures forall n :: n in sources <==> n in g.attrs && n !in DestsOf(g.adjOrder, g.adj)
    ensures forall n :: n in sinks <==> n in g.attrs && AdjOf(g.adj, n) == []
    ensures sources == ZeroDegree(g.nodeOrder, map n | n in g.attrs :: multiset(DestsOf(g.adjOrder, g.adj))[n])
    ensures sinks == ZeroDegree(g.nodeOrder, g.OutDegree())
  {
    var inDeg := g.InDegree();
    var outDeg := g.OutDegree();
    assert inDeg == map n | n in g.attrs :: multiset(DestsOf(g.adjOrder, g.adj))[n];
    sources := ZeroDegree(g.nodeOrder, inDeg);
    sinks := ZeroDegree(g.nodeOrder, outDeg);
    forall n | n in g.attrs ensures outDeg[n] == 0 <==> AdjOf(g.adj, n) == [] {
      SrcsOfFlatten(g.adjOrder, g.adj, n);
    }
  }

  // ---------------------------------------------------------------- collapse_trigger_nodes

  /** `attrs.get('operator_id') == trigger_operator_id`. */
  predicate IsTrigger(a: Attrs, tid: int)
  {
    "operator_id" in a && a["operator_id"] == IntAttr(tid)
  }

  /** `trigger_nodes`: the registered nodes whose attributes name the trigger operator, in order. */
  function TriggerList(ns: seq<int>, attrs: map<int, Attrs>, tid: int): (r: seq<int>)
    ensures forall n :: n in r <==> n in ns && n in attrs && IsTrigger(attrs[n], tid)
    decreases |ns|
  {
    if ns == [] then []
    else
      var n := ns[|ns| - 1];
      TriggerList(ns[..|ns| - 1], attrs, tid) + (if n in attrs && IsTrigger(attrs[n], tid) then [n] else [])
  }

  /** The members of `ns` not in `ts`, in order. */
  function Without(ns: seq<int>, ts: seq<int>): (r: seq<int>)
    ensures forall n :: n in r <==> n in ns && n !in ts
    decreases |ns|
  {
    if ns == [] then []
    else
      var n := ns[|ns| - 1];
      Without(ns[..|ns| - 1], ts) + (if n !in ts then [n] else [])
  }

  /** `incoming_nodes`: the nodes, in order, whose list mentions `t`. */
  function Incoming(ns: seq<int>, adj: map<int, seq<int>>, t: int): (r: seq<int>)
    ensures forall n :: n in r <==> n in ns && t in AdjOf(adj, n)
    decreases |ns|
  {
    if ns == [] then []
    else
      var n := ns[|ns| - 1];
      Incoming(ns[..|ns| - 1], adj, t) + (if t in AdjOf(adj, n) then [n] else [])
  }

  /** The edges `p -> q` for each `q` of `outs`, when both ends survive the collapse. */
  function EdgeRow(p: int, outs: seq<int>, keep: set<int>): seq<Edge>
    decreases |outs|
  {
    if outs == [] then []
    else
      var q := outs[|outs| - 1];
      EdgeRow(p, outs[..|outs| - 1], keep) + (if p in keep && q in keep then [(p, q)] else [])
  }

  /** The bridges through one trigger: every predecessor row against its successors. */
  function BridgesOf(preds: seq<int>, outs: seq<int>, keep: set<int>): seq<Edge>
    decreases |preds|
  {
    if preds == [] then []
    else BridgesOf(preds[..|preds| - 1], outs, keep) + EdgeRow(preds[|preds| - 1], outs, keep)
  }

  /** The bridges through every trigger of `ts`, in trigger order. */
  function AllBridges(ts: seq<int>, ns: seq<int>, adj: map<int, seq<int>>, keep: set<int>): seq<Edge>
    decreases |ts|
  {
    if ts == [] then []
    else
      var t := ts[|ts| - 1];
      AllBridges(ts[..|ts| - 1], ns, adj, keep) + BridgesOf(Incoming(ns, adj, t), AdjOf(adj, t), keep)
  }

  /** The surviving direct edges, in node order. */
  function CopyEdges(ns: seq<int>, adj: map<int, seq<int>>, keep: set<int>): seq<Edge>
    decreases |ns|
  {
    if ns == [] then []
    else CopyEdges(ns[..|ns| - 1], adj, keep) + EdgeRow(ns[|ns| - 1], AdjOf(adj, ns[|ns| - 1]), keep)
  }

  /** The non-trigger registered nodes. */
  function Keep(attrs: map<int, Attrs>, ts: seq<int>): set<int>
  {
    set n | n in attrs && n !in ts
  }

  /** Every edge added to the collapsed graph, in order: the bridges, then the copies. */
  function CollapsedEdges(g: SimpleDiGraph, tid: int): seq<Edge>
    reads g
  {
    var ts := TriggerList(g.nodeOrder, g.attrs, tid);
    var keep := Keep(g.attrs, ts);
    AllBridges(ts, g.nodeOrder, g.adj, keep) + CopyEdges(g.nodeOrder, g.adj, keep)
  }

  /** The number of bridges `a -> b` summed over the triggers of `ts`: one per trigger
      that `a` points at, times the number of times that trigger points at `b`. */
  function BridgeCount(ts: seq<int>, ns: seq<int>, adj: map<int, seq<int>>, keep: set<int>, a: int, b: int): nat
    decreases |ts|
  {
    if ts == [] then 0
    else
      var t := ts[|ts| - 1];
      BridgeCount(ts[..|ts| - 1], ns, adj, keep, a, b)
        + (if a in keep && b in keep && a in ns && t in AdjOf(adj, a) then multiset(AdjOf(adj, t))[b] else 0)
  }

  lemma {:induction false} EdgeRowCount(p: int, outs: seq<int>, keep: set<int>, e: Edge)
    ensures multiset(EdgeRow(p, outs, keep))[e] == if e.0 == p && p in keep && e.1 in keep then multiset(outs)[e.1] else 0
    decreases |outs|
  {
    if outs != [] {
      EdgeRowCount(p, outs[..|outs| - 1], keep, e);
      assert outs == outs[..|outs| - 1] + [outs[|outs| - 1]];
    }
  }

  /** A predecessor with several parallel edges into the trigger still appears once in
      `incoming_nodes`, so it gets each successor once per occurrence in the trigger's list. */
  lemma {:induction false} BridgesOfCount(preds: seq<int>, outs: seq<int>, keep: set<int>, e: Edge)
    requires NoDup(preds)
    ensures multiset(BridgesOf(preds, outs, keep))[e] == if e.0 in preds && e.0 in keep && e.1 in keep then multiset(outs)[e.1] else 0
    decreases |preds|
  {
    if preds != [] {
      var init, p := preds[..|preds| - 1], preds[|preds| - 1];
      assert NoDup(init);
      BridgesOfCount(init, outs, keep, e);
      EdgeRowCount(p, outs, keep, e);
      assert preds == init + [p];
      assert e.0 in preds <==> e.0 in init || e.0 == p;
      assert p !in init;
    }
  }

  lemma {:induction false} IncomingNoDup(ns: seq<int>, adj: map<int, seq<int>>, t: int)
    requires NoDup(ns)
    ensures NoDup(Incoming(ns, adj, t))
    decreases |ns|
  {
    if ns != [] {
      var init := ns[..|ns| - 1];
      assert NoDup(init);
      IncomingNoDup(init, adj, t);
      assert ns == init + [ns[|ns| - 1]];
    }
  }

  lemma {:induction false} AllBridgesCount(ts: seq<int>, ns: seq<int>, adj: map<int, seq<int>>, keep: set<int>, e: Edge)
    requires NoDup(ns)
    ensures multiset(AllBridges(ts, ns, adj, keep))[e] == BridgeCount(ts, ns, adj, keep, e.0, e.1)
    decreases |ts|
  {
    if ts != [] {
      var t := ts[|ts| - 1];
      AllBridgesCount(ts[..|ts| - 1], ns, adj, keep, e);
      IncomingNoDup(ns, adj, t);
      BridgesOfCount(Incoming(ns, adj, t), AdjOf(adj, t), keep, e);
    }
  }

  lemma {:induction false} CopyEdgesCount(ns: seq<int>, adj: map<int, seq<int>>, keep: set<int>, e: Edge)
    requires NoDup(ns)
    ensures multiset(CopyEdges(ns, adj, keep))[e] == if e.0 in ns && e.0 in keep && e.1 in keep then multiset(AdjOf(adj, e.0))[e.1] else 0
    decreases |ns|
  {
    if ns != [] {
      var init, n := ns[..|ns| - 1], ns[|ns| - 1];
      assert NoDup(init);
      CopyEdgesCount(init, adj, keep, e);
      EdgeRowCount(n, AdjOf(adj, n), keep, e);
      assert ns == init + [n];
      assert e.0 in ns <==> e.0 in init || e.0 == n;
      assert n !in init;
    }
  }

  /** The multiplicity rule of the collapse: an edge `a -> b` of the new graph has both
      ends outside the triggers, and occurs (number of direct `a -> b` edges) plus (for
      each trigger `a` points at, the number of its `b` edges) times. */
  lemma CollapsedMultiplicity(g: SimpleDiGraph, tid: int, a: int, b: int)
    requires g.Valid()
    ensures var ts := TriggerList(g.nodeOrder, g.attrs, tid);
      multiset(CollapsedEdges(g, tid))[(a, b)]
        == if a in g.attrs && a !in ts && b in g.attrs && b !in ts
           then BridgeCount(ts, g.nodeOrder, g.adj, Keep(g.attrs, ts), a, b) + multiset(AdjOf(g.adj, a))[b]
           else 0
  {
    var ts := TriggerList(g.nodeOrder, g.attrs, tid);
    var keep := Keep(g.attrs, ts);
    AllBridgesCount(ts, g.nodeOrder, g.adj, keep, (a, b));
    CopyEdgesCount(g.nodeOrder, g.adj, keep, (a, b));
    if !(a in keep && b in keep) {
      BridgeCountOutside(ts, g.nodeOrder, g.adj, keep, a, b);
    }
  }

  lemma {:induction false} BridgeCountOutside(ts: seq<int>, ns: seq<int>, adj: map<int, seq<int>>, keep: set<int>, a: int, b: int)
    requires !(a in keep && b in keep)
    ensures BridgeCount(ts, ns, adj, keep, a, b) == 0
    decreases |ts|
  {
    if ts != [] {
      BridgeCountOutside(ts[..|ts| - 1], ns, adj, keep, a, b);
    }
  }

  /** A bridge goes through a single trigger: `a` points at some trigger `t` of `ts` that
      points at `b`. Hence a route through two consecutive triggers adds no edge. */
  lemma {:induction false} BridgeThroughTrigger(ts: seq<int>, ns: seq<int>, adj: map<int, seq<int>>, keep: set<int>, a: int, b: int)
    requires BridgeCount(ts, ns, adj, keep, a, b) > 0
    ensures a in keep && b in keep && a in ns
    ensures exists t :: t in ts && t in AdjOf(adj, a) && b in AdjOf(adj, t)
    decreases |ts|
  {
    var t := ts[|ts| - 1];
    if a in keep && b in keep && a in ns && t in AdjOf(adj, a) && multiset(AdjOf(adj, t))[b] > 0 {
      assert t in ts;
    } else {
      BridgeThroughTrigger(ts[..|ts| - 1], ns, adj, keep, a, b);
      var t' :| t' in ts[..|ts| - 1] && t' in AdjOf(adj, a) && b in AdjOf(adj, t');
      assert t' in ts;
    }
  }

  lemma EdgeRowSnoc(p: int, outs: seq<int>, j: nat, keep: set<int>)
    requires j < |outs|
    ensures EdgeRow(p, outs[..j + 1], keep) == EdgeRow(p, outs[..j], keep) + (if p in keep && outs[j] in keep then [(p, outs[j])] else [])
  {
    assert outs[..j + 1][..j] == outs[..j];
  }

  /** One step of the row loop: the edge `p -> outs[j]` is added when both ends survive. */
  method AddRowEdge(h: SimpleDiGraph, p: int, outs: seq<int>, j: nat, ts: seq<int>, ghost keep: set<int>,
                    ghost added: seq<Edge>, ghost cur: seq<Edge>)
    returns (ghost cur': seq<Edge>)
    requires j < |outs|
    requires h.Valid() && h.attrs.Keys == keep
    requires forall n :: n in h.attrs ==> n !in ts
    requires cur == added + EdgeRow(p, outs[..j], keep) && Mirrors(h.adj, cur)
    modifies h
    ensures h.Valid() && h.attrs == old(h.attrs) && h.nodeOrder == old(h.nodeOrder)
    ensures cur' == added + EdgeRow(p, outs[..j + 1], keep)
    ensures Mirrors(h.adj, cur')
  {
    var q := outs[j];
    EdgeRowSnoc(p, outs, j, keep);
    ghost var row := EdgeRow(p, outs[..j], keep);
    if p !in ts && q !in ts && p in h.attrs && q in h.attrs {
      MirrorsAppend(h.adj, cur, p, q);
      var _ := h.AddEdge(p, q);
      cur' := cur + [(p, q)];
      assert (added + row) + [(p, q)] == added + (row + [(p, q)]);
    } else {
      cur' := cur;
      assert row + [] == row;
    }
  }

  /** Adds the edges of one row to `h`, recording them in the ghost list `added`. */
  method AddRow(h: SimpleDiGraph, p: int, outs: seq<int>, ts: seq<int>, ghost keep: set<int>, ghost added: seq<Edge>)
    returns (ghost added': seq<Edge>)
    requires h.Valid() && h.attrs.Keys == keep
    requires forall n :: n in h.attrs ==> n !in ts
    requires Mirrors(h.adj, added)
    modifies h
    ensures h.Valid() && h.attrs == old(h.attrs) && h.nodeOrder == old(h.nodeOrder)
    ensures added' == added + EdgeRow(p, outs, keep)
    ensures Mirrors(h.adj, added')
  {
    added' := added;
    assert outs[..0] == [];
    for j := 0 to |outs|
      invariant h.Valid() && h.attrs == old(h.attrs) && h.nodeOrder == old(h.nodeOrder)
      invariant added' == added + EdgeRow(p, outs[..j], keep)
      invariant Mirrors(h.adj, added')
    {
      added' := AddRowEdge(h, p, outs, j, ts, keep, added, added');
    }
    assert outs[..|outs|] == outs;
  }

  /** Adds the bridges through one trigger. */
  method AddBridges(h: SimpleDiGraph, preds: seq<int>, outs: seq<int>, ts: seq<int>, ghost keep: set<int>, ghost added: seq<Edge>)
    returns (ghost added': seq<Edge>)
    requires h.Valid() && h.attrs.Keys == keep
    requires forall n :: n in h.attrs ==> n !in ts
    requires Mirrors(h.adj, added)
    modifies h
    ensures h.Valid() && h.attrs == old(h.attrs) && h.nodeOrder == old(h.nodeOrder)
    ensures added' == added + BridgesOf(preds, outs, keep)
    ensures Mirrors(h.adj, added')
  {
    added' := added;
    for i := 0 to |preds|
      invariant h.Valid() && h.attrs == old(h.attrs) && h.nodeOrder == old(h.nodeOrder)
      invariant added' == added + BridgesOf(preds[..i], outs, keep)
      invariant Mirrors(h.adj, added')
    {
      assert preds[..i + 1][..i] == preds[..i];
      added' := AddRow(h, preds[i], outs, ts, keep, added');
    }
    assert preds[..|preds|] == preds;
  }

  /** One step of the node loop: `ns[i]` is copied unless it is a trigger. */
  method CopyNode(h: SimpleDiGraph, ns: seq<int>, i: nat, attrs: map<int, Attrs>, ts: seq<int>)
    requires i < |ns| && NoDup(ns) && forall n :: n in ns ==> n in attrs
    requires h.Valid() && h.adj == map[] && h.adjOrder == []
    requires h.nodeOrder == Without(ns[..i], ts)
    requires forall n :: n in h.attrs <==> n in ns[..i] && n !in ts
    requires forall n :: n in h.attrs ==> h.attrs[n] == attrs[n]
    modifies h
    ensures h.Valid() && h.adj == map[] && h.adjOrder == []
    ensures h.nodeOrder == Without(ns[..i + 1], ts)
    ensures forall n :: n in h.attrs <==> n in ns[..i + 1] && n !in ts
    ensures forall n :: n in h.attrs ==> h.attrs[n] == attrs[n]
  {
    var n := ns[i];
    assert ns[..i + 1] == ns[..i] + [n];
    assert ns[..i + 1][..i] == ns[..i];
    if n !in ts {
      assert n !in ns[..i];
      h.AddNode(n, attrs[n]);
    }
  }

  /** The first loop of `collapse_trigger_nodes`: the non-trigger nodes with their attributes. */
  method CopyNodes(h: SimpleDiGraph, ns: seq<int>, attrs: map<int, Attrs>, ts: seq<int>)
    requires h.Valid() && h.nodeOrder == [] && h.attrs == map[] && h.adj == map[] && h.adjOrder == []
    requires NoDup(ns) && forall n :: n in ns ==> n in attrs
    modifies h
    ensures h.Valid() && h.adj == map[] && h.adjOrder == []
    ensures h.nodeOrder == Without(ns, ts)
    ensures forall n :: n in h.attrs <==> n in ns && n !in ts
    ensures forall n :: n in h.attrs ==> h.attrs[n] == attrs[n]
  {
    for i := 0 to |ns|
      invariant h.Valid() && h.adj == map[] && h.adjOrder == []
      invariant h.nodeOrder == Without(ns[..i], ts)
      invariant forall n :: n in h.attrs <==> n in ns[..i] && n !in ts
      invariant forall n :: n in h.attrs ==> h.attrs[n] == attrs[n]
    {
      CopyNode(h, ns, i, attrs, ts);
    }
    assert ns[..|ns|] == ns;
  }

  /** The bridge loop of `collapse_trigger_nodes`. */
  method AddAllBridges(h: SimpleDiGraph, ns: seq<int>, adj: map<int, seq<int>>, ts: seq<int>, ghost keep: set<int>)
    returns (ghost added: seq<Edge>)
    requires h.Valid() && h.attrs.Keys == keep && h.adj == map[]
    requires forall n :: n in h.attrs ==> n !in ts
    modifies h
    ensures h.Valid() && h.attrs == old(h.attrs) && h.nodeOrder == old(h.nodeOrder)
    ensures added == AllBridges(ts, ns, adj, keep)
    ensures Mirrors(h.adj, added)
  {
    added := [];
    for k := 0 to |ts|
      invariant h.Valid() && h.attrs == old(h.attrs) && h.nodeOrder == old(h.nodeOrder)
      invariant added == AllBridges(ts[..k], ns, adj, keep)
      invariant Mirrors(h.adj, added)
    {
      var t := ts[k];
      var incoming := Incoming(ns, adj, t);
      var outgoing := AdjOf(adj, t);
      assert ts[..k + 1][..k] == ts[..k];
      added := AddBridges(h, incoming, outgoing, ts, keep, added);
    }
    assert ts[..|ts|] == ts;
  }

  lemma CopyEdgesSnoc(ns: seq<int>, m: nat, adj: map<int, seq<int>>, keep: set<int>)
    requires m < |ns|
    ensures CopyEdges(ns[..m + 1], adj, keep) == CopyEdges(ns[..m], adj, keep) + EdgeRow(ns[m], AdjOf(adj, ns[m]), keep)
  {
    assert ns[..m + 1][..m] == ns[..m];
  }

  /** Appending node `ns[m]`'s row extends the copies of `ns[..m]` to those of `ns[..m + 1]`. */
  lemma CopyStep(added: seq<Edge>, cur: seq<Edge>, ns: seq<int>, m: nat, adj: map<int, seq<int>>, keep: set<int>)
    requires m < |ns| && cur == added + CopyEdges(ns[..m], adj, keep)
    ensures cur + EdgeRow(ns[m], AdjOf(adj, ns[m]), keep) == added + CopyEdges(ns[..m + 1], adj, keep)
  {
    CopyEdgesSnoc(ns, m, adj, keep);
  }

  /** Node `n`'s surviving direct edges are appended; a trigger node has none. */
  method CopyRow(h: SimpleDiGraph, n: int, outs: seq<int>, ts: seq<int>, ghost keep: set<int>, ghost added: seq<Edge>)
    returns (ghost added': seq<Edge>)
    requires h.Valid() && h.attrs.Keys == keep
    requires forall n :: n in h.attrs ==> n !in ts
    requires forall n :: n in ts ==> n !in keep
    requires Mirrors(h.adj, added)
    modifies h
    ensures h.Valid() && h.attrs == old(h.attrs) && h.nodeOrder == old(h.nodeOrder)
    ensures added' == added + EdgeRow(n, outs, keep)
    ensures Mirrors(h.adj, added')
  {
    if n !in ts {
      added' := AddRow(h, n, outs, ts, keep, added);
    } else {
      EdgeRowOutside(n, outs, keep);
      added' := added;
    }
  }

  /** The copy loop of `collapse_trigger_nodes`. */
  method AddCopies(h: SimpleDiGraph, ns: seq<int>, adj: map<int, seq<int>>, ts: seq<int>, ghost keep: set<int>, ghost added: seq<Edge>)
    returns (ghost added': seq<Edge>)
    requires h.Valid() && h.attrs.Keys == keep
    requires forall n :: n in h.attrs ==> n !in ts
    requires forall n :: n in ts ==> n !in keep
    requires Mirrors(h.adj, added)
    modifies h
    ensures h.Valid() && h.attrs == old(h.attrs) && h.nodeOrder == old(h.nodeOrder)
    ensures added' == added + CopyEdges(ns, adj, keep)
    ensures Mirrors(h.adj, added')
  {
    added' := added;
    assert ns[..0] == [];
    for m := 0 to |ns|
      invariant h.Valid() && h.attrs == old(h.attrs) && h.nodeOrder == old(h.nodeOrder)
      invariant added' == added + CopyEdges(ns[..m], adj, keep)
      invariant Mirrors(h.adj, added')
    {
      CopyStep(added, added', ns, m, adj, keep);
      added' := CopyRow(h, ns[m], AdjOf(adj, ns[m]), ts, keep, added');
    }
    assert ns[..|ns|] == ns;
  }

  /** `collapse_trigger_nodes`: without trigger nodes the input graph itself; otherwise a
      new graph of the non-trigger nodes (with their attributes) whose adjacency is exactly
      the bridges followed by the surviving direct edges. */
  method CollapseTriggerNodes(g: SimpleDiGraph, tid: int) returns (h: SimpleDiGraph)
    requires g.Valid()
    ensures h.Valid()
    ensures TriggerList(g.nodeOrder, g.attrs, tid) == [] ==> h == g
    ensures TriggerList(g.nodeOrder, g.attrs, tid) != [] ==>
      var ts := TriggerList(g.nodeOrder, g.attrs, tid);
      && fresh(h)
      && h.nodeOrder == Without(g.nodeOrder, ts)
      && (forall n :: n in h.attrs <==> n in g.attrs && n !in ts)
      && (forall n :: n in h.attrs ==> h.attrs[n] == g.attrs[n])
      && Mirrors(h.adj, CollapsedEdges(g, tid))
  {
    var ts := TriggerList(g.nodeOrder, g.attrs, tid);
    if ts == [] {
      return g;
    }
    h := new SimpleDiGraph();
    CopyNodes(h, g.nodeOrder, g.attrs, ts);
    ghost var keep := Keep(g.attrs, ts);
    forall n ensures n in h.attrs.Keys <==> n in keep {
      assert n in g.attrs <==> n in g.nodeOrder;
    }
    assert h.attrs.Keys == keep;
    ghost var bridges := AddAllBridges(h, g.nodeOrder, g.adj, ts, keep);
    ghost var all := AddCopies(h, g.nodeOrder, g.adj, ts, keep, bridges);
  }

  lemma {:induction false} EdgeRowOutside(p: int, outs: seq<int>, keep: set<int>)
    requires p !in keep
    ensures EdgeRow(p, outs, keep) == []
    decreases |outs|
  {
    if outs != [] {
      EdgeRowOutside(p, outs[..|outs| - 1], keep);
    }
  }
}
