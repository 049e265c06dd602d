/** Lineage pairs from explicit mappings or from graph edges
    (lineage_core/services/omd_use_cases/lineage_pair_generator.py). */
module PairGenerator {
  import opened Outcomes
  import opened Text
  import opened Types
  import opened Models
  import opened FqnUtils
  import opened SimpleGraph
  import opened GraphBuilder
  import ApiClient
  import UrlBuilder

  // ---------------------------------------------------------------- generate_pairs

  function PairRow(s: TypedFQN, targets: seq<TypedFQN>): (r: seq<EntityPair>)
    ensures |r| == |targets| && forall j :: 0 <= j < |targets| ==> r[j] == EntityPair(s, targets[j])
  {
    seq(|targets|, j requires 0 <= j < |targets| => EntityPair(s, targets[j]))
  }

  /** `itertools.product(sources, targets)`: sources-major. */
  function Product(sources: seq<TypedFQN>, targets: seq<TypedFQN>): seq<EntityPair>
    decreases |sources|
  {
    if sources == [] then []
    else Product(sources[..|sources| - 1], targets) + PairRow(sources[|sources| - 1], targets)
  }

  lemma MulStep(n: nat, m: nat)
    requires n >= 1
    ensures (n - 1) * m + m == n * m
  {
  }

  lemma MulBelow(i: nat, j: nat, n: nat, m: nat)
    requires i < n && j < m
    ensures i * m + j < n * m
  {
    assert i * m + j < i * m + m == (i + 1) * m;
    assert (i + 1) * m <= n * m;
  }

  /** `r` is the sources-major cross product: |S|·|T| pairs, pair i·|T|+j being `(S[i], T[j])`. */
  predicate IsCrossProduct(r: seq<EntityPair>, sources: seq<TypedFQN>, targets: seq<TypedFQN>)
  {
    |r| == |sources| * |targets|
    && forall i, j :: 0 <= i < |sources| && 0 <= j < |targets| ==> PairAt(r, sources, targets, i, j)
  }

  /** Row `i`, column `j` of the product sits at position `i * |targets| + j`. */
  predicate PairAt(r: seq<EntityPair>, sources: seq<TypedFQN>, targets: seq<TypedFQN>, i: nat, j: nat)
    requires i < |sources| && j < |targets|
  {
    i * |targets| + j < |r| && r[i * |targets| + j] == EntityPair(sources[i], targets[j])
  }

  /** `r` pairs the two lists positionally. */
  predicate IsZip(r: seq<EntityPair>, sources: seq<TypedFQN>, targets: seq<TypedFQN>)
  {
    |r| == |sources| == |targets| && forall k :: 0 <= k < |sources| ==> r[k] == EntityPair(sources[k], targets[k])
  }

  lemma {:induction false} ProductLength(sources: seq<TypedFQN>, targets: seq<TypedFQN>)
    ensures |Product(sources, targets)| == |sources| * |targets|
    decreases |sources|
  {
    if sources != [] {
      ProductLength(sources[..|sources| - 1], targets);
      MulStep(|sources|, |targets|);
    }
  }

  lemma {:induction false} ProductIndex(sources: seq<TypedFQN>, targets: seq<TypedFQN>, i: nat, j: nat)
    requires i < |sources| && j < |targets|
    ensures i * |targets| + j < |Product(sources, targets)|
    ensures Product(sources, targets)[i * |targets| + j] == EntityPair(sources[i], targets[j])
    decreases |sources|
  {
    var n, m := |sources|, |targets|;
    var init := sources[..n - 1];
    var k := i * m + j;
    ProductLength(init, targets);
    ProductLength(sources, targets);
    var p := Product(init, targets);
    assert Product(sources, targets) == p + PairRow(sources[n - 1], targets);
    if i < n - 1 {
      MulBelow(i, j, n - 1, m);
      ProductIndex(init, targets, i, j);
      assert init[i] == sources[i];
      assert Product(sources, targets)[k] == p[k];
    } else {
      assert k == |p| + j;
      assert Product(sources, targets)[k] == PairRow(sources[n - 1], targets)[j];
    }
  }

  lemma ProductAt(sources: seq<TypedFQN>, targets: seq<TypedFQN>)
    ensures IsCrossProduct(Product(sources, targets), sources, targets)
  {
    forall i, j | 0 <= i < |sources| && 0 <= j < |targets|
      ensures PairAt(Product(sources, targets), sources, targets, i, j)
    {
      ProductIndex(sources, targets, i, j);
    }
    ProductLength(sources, targets);
  }

  const OneToOneLengthMessage: string := "one_to_one mapping requires equal source and target lengths."

  /** `generate_pairs`: nothing when either side is empty (before any length check),
      positional pairs for one-to-one with equal lengths, an error for one-to-one with
      unequal lengths, and the full cross product for every other mapping. */
  function GeneratePairs(mapping: MappingType, sources: seq<TypedFQN>, targets: seq<TypedFQN>): (r: Result<seq<EntityPair>>)
    ensures sources == [] || targets == [] ==> r == Ok([])
    ensures sources != [] && targets != [] && mapping == OneToOne && |sources| != |targets| ==>
      r == Err(AirflowError(OneToOneLengthMessage))
    ensures sources != [] && targets != [] && mapping == OneToOne && |sources| == |targets| ==>
      r.Ok? && IsZip(r.value, sources, targets)
    ensures sources != [] && targets != [] && mapping != OneToOne ==>
      r.Ok? && IsCrossProduct(r.value, sources, targets)
  {
    if sources == [] || targets == [] then Ok([])
    else if mapping == OneToOne then
      if |sources| != |targets| then Err(AirflowError(OneToOneLengthMessage))
      else Ok(seq(|sources|, k requires 0 <= k < |sources| => EntityPair(sources[k], targets[k])))
    else
      ProductAt(sources, targets);
      Ok(Product(sources, targets))
  }

  // ---------------------------------------------------------------- filter_existing_nodes_only

  function NodeFqn(ctx: DatabaseContext, n: Node): string
  {
    Fqn(ctx, n.dbSchema, n.name)
  }

  /** One node of the filter: kept (`Ok(true)`) when the catalog has the table, dropped
      (`Ok(false)`) on an `AirflowException` whose text contains `404`, and any other
      exception propagates. */
  function NodeDecision(client: ApiClient.LineageApiClient, ctx: DatabaseContext, n: Node): Result<bool>
  {
    var found := ApiClient.GetEntity(client.http, client.urls, Table, NodeFqn(ctx, n));
    if found.Ok? then Ok(true)
    else if found.error.AirflowError? && Contains(found.error.message, "404") then Ok(false)
    else Err(found.error)
  }

  /** The node loop: the nodes kept, in order, or the first propagated exception. */
  function FilterNodes(client: ApiClient.LineageApiClient, ctx: DatabaseContext, nodes: seq<Node>): (r: Result<seq<Node>>)
    ensures r.Ok? <==> forall k :: 0 <= k < |nodes| ==> NodeDecision(client, ctx, nodes[k]).Ok?
    ensures r.Ok? ==> |r.value| <= |nodes|
    ensures r.Ok? ==> forall n :: n in r.value <==> n in nodes && NodeDecision(client, ctx, n) == Ok(true)
    decreases |nodes|
  {
    if nodes == [] then Ok([])
    else
      var prefix := nodes[..|nodes| - 1];
      var init := FilterNodes(client, ctx, prefix);
      var last := nodes[|nodes| - 1];
      AllSnoc(nodes, prefix, (n: Node) => NodeDecision(client, ctx, n).Ok?);
      if init.Err? then init
      else
        var d := NodeDecision(client, ctx, last);
        KeepSnoc(nodes, init.value, (n: Node) => NodeDecision(client, ctx, n) == Ok(true));
        if d.Err? then Err(d.error)
        else if d.value then Ok(init.value + [last])
        else init
  }

  /** Every element of `s` passes `ok` when every element of its front and its last one do. */
  lemma AllSnoc<T>(s: seq<T>, init: seq<T>, ok: T -> bool)
    requires s != [] && init == s[..|s| - 1]
    ensures (forall k :: 0 <= k < |s| ==> ok(s[k]))
        <==> (forall k :: 0 <= k < |init| ==> ok(init[k])) && ok(s[|s| - 1])
  {
    assert forall k :: 0 <= k < |init| ==> init[k] == s[k];
  }

  /** The members kept from `s` are those kept from its front, plus its last element when
      that one is kept too. */
  lemma KeepSnoc<T>(s: seq<T>, acc: seq<T>, keep: T -> bool)
    requires s != []
    requires forall n :: n in acc <==> n in s[..|s| - 1] && keep(n)
    ensures keep(s[|s| - 1]) ==> forall n :: n in acc + [s[|s| - 1]] <==> n in s && keep(n)
    ensures !keep(s[|s| - 1]) ==> forall n :: n in acc <==> n in s && keep(n)
  {
    assert s == s[..|s| - 1] + [s[|s| - 1]];
  }

  lemma {:induction false} FilterNodesSticky(client: ApiClient.LineageApiClient, ctx: DatabaseContext, nodes: seq<Node>, k: nat)
    requires k <= |nodes| && FilterNodes(client, ctx, nodes[..k]).Err?
    ensures FilterNodes(client, ctx, nodes) == FilterNodes(client, ctx, nodes[..k])
    decreases |nodes| - k
  {
    if k < |nodes| {
      assert nodes[..k + 1][..k] == nodes[..k];
      FilterNodesSticky(client, ctx, nodes, k + 1);
    } else {
      assert nodes[..k] == nodes;
    }
  }

  /** The filter of one node: kept exactly when the lookup finds the table. */
  lemma FilterNodesSingle(client: ApiClient.LineageApiClient, ctx: DatabaseContext, n: Node)
    ensures var d := NodeDecision(client, ctx, n);
      FilterNodes(client, ctx, [n]) == if d.Err? then Err(d.error) else if d.value then Ok([n]) else Ok([])
  {
    assert [n][..0] == [];
    assert FilterNodes(client, ctx, []) == Ok([]);
    assert [] + [n] == [n];
  }

  /** The filter works node by node and keeps the input's order and repetitions: the
      filter of a concatenation is the first part's error, else the second part's error,
      else the two kept lists one after the other. */
  lemma {:induction false} FilterNodesAppend(client: ApiClient.LineageApiClient, ctx: DatabaseContext, a: seq<Node>, b: seq<Node>)
    ensures var fa, fb := FilterNodes(client, ctx, a), FilterNodes(client, ctx, b);
      FilterNodes(client, ctx, a + b) == if fa.Err? then fa else if fb.Err? then fb else Ok(fa.value + fb.value)
    decreases |b|
  {
    if b == [] {
      assert a + b == a;
      assert FilterNodes(client, ctx, b) == Ok([]);
      var fa := FilterNodes(client, ctx, a);
      if fa.Ok? {
        assert fa.value + [] == fa.value;
      }
    } else {
      var init, last := b[..|b| - 1], b[|b| - 1];
      assert (a + b)[..|a + b| - 1] == a + init;
      assert (a + b)[|a + b| - 1] == last;
      FilterNodesAppend(client, ctx, a, init);
      var fa, fi := FilterNodes(client, ctx, a), FilterNodes(client, ctx, init);
      if fa.Ok? && fi.Ok? {
        Text.AppendAssoc(fa.value, fi.value, [last]);
      }
    }
  }

  /** A node is dropped only on a 404 reply for an fqn that itself contains `404`: the
      not-found message carries the fqn and not the status, so a missing table whose
      fqn lacks `404` makes the whole filter raise. */
  lemma DroppedNodes(client: ApiClient.LineageApiClient, ctx: DatabaseContext, n: Node)
    ensures var reply := client.http(UrlBuilder.ByFqn(client.urls, Table, NodeFqn(ctx, n), ["columns"]));
      && (NodeDecision(client, ctx, n) == Ok(false) <==>
            reply.Response? && reply.status == ApiClient.NotFound && Contains(NodeFqn(ctx, n), "404"))
      && (reply.Response? && reply.status == ApiClient.NotFound && !Contains(NodeFqn(ctx, n), "404") ==>
            NodeDecision(client, ctx, n) == Err(AirflowError(ApiClient.NotFoundByFqnMessage(Table, NodeFqn(ctx, n)))))
  {
    ApiClient.NotFoundMessageMentions404(Table, NodeFqn(ctx, n));
  }

  /** One edge of the comprehension: `int(src) in ids and int(dst) in ids`. The parses
      are not guarded, so a non-numeric id raises; the target id is parsed only when the
      source id is among the kept ids. */
  function EdgeDecision(e: LineageEdge, ids: set<int>): (r: Result<bool>)
    ensures r == Ok(true) <==> ParseEdge(e).Ok? && ParseEdge(e).value.0 in ids && ParseEdge(e).value.1 in ids
    ensures ParseEdge(e).Ok? ==> r.Ok?
  {
    var src := ParseInt(e.fromEntity.id);
    if src.Err? then Err(src.error)
    else if src.value !in ids then Ok(false)
    else
      var dst := ParseInt(e.toEntity.id);
      if dst.Err? then Err(dst.error) else Ok(dst.value in ids)
  }

  /** The edge comprehension: the edges whose two ends are kept ids, in order. */
  function FilterEdges(edges: seq<LineageEdge>, ids: set<int>): (r: Result<seq<LineageEdge>>)
    ensures r.Ok? <==> forall k :: 0 <= k < |edges| ==> EdgeDecision(edges[k], ids).Ok?
    ensures ParseEdges(edges).Ok? ==> r.Ok?
    ensures r.Ok? ==> |r.value| <= |edges|
    ensures r.Ok? ==> forall e :: e in r.value <==> e in edges && EdgeDecision(e, ids) == Ok(true)
    decreases |edges|
  {
    if edges == [] then Ok([])
    else
      var prefix := edges[..|edges| - 1];
      var init := FilterEdges(prefix, ids);
      var last := edges[|edges| - 1];
      assert forall e :: e in edges <==> e in prefix || e == last by {
        assert edges == prefix + [last];
      }
      assert ParseEdges(edges).Ok? ==> ParseEdges(prefix).Ok? && ParseEdge(last).Ok?;
      if init.Err? then init
      else
        var d := EdgeDecision(last, ids);
        if d.Err? then Err(d.error)
        else if d.value then Ok(init.value + [last])
        else init
  }

  /** The comprehension over one edge: kept exactly when both ends are kept ids. */
  lemma FilterEdgesSingle(e: LineageEdge, ids: set<int>)
    ensures var d := EdgeDecision(e, ids);
      FilterEdges([e], ids) == if d.Err? then Err(d.error) else if d.value then Ok([e]) else Ok([])
  {
    assert [e][..0] == [];
    assert FilterEdges([], ids) == Ok([]);
    assert [] + [e] == [e];
  }

  /** The comprehension keeps the edges' order and repetitions: the filter of a
      concatenation is the first part's error, else the second part's error, else the
      two kept lists one after the other. */
  lemma {:induction false} FilterEdgesAppend(a: seq<LineageEdge>, b: seq<LineageEdge>, ids: set<int>)
    ensures var fa, fb := FilterEdges(a, ids), FilterEdges(b, ids);
      FilterEdges(a + b, ids) == if fa.Err? then fa else if fb.Err? then fb else Ok(fa.value + fb.value)
    decreases |b|
  {
    if b == [] {
      assert a + b == a;
      assert FilterEdges(b, ids) == Ok([]);
      var fa := FilterEdges(a, ids);
      if fa.Ok? {
        assert fa.value + [] == fa.value;
      }
    } else {
      var init, last := b[..|b| - 1], b[|b| - 1];
      assert (a + b)[..|a + b| - 1] == a + init;
      assert (a + b)[|a + b| - 1] == last;
      FilterEdgesAppend(a, init, ids);
      var fa, fi := FilterEdges(a, ids), FilterEdges(init, ids);
      if fa.Ok? && fi.Ok? {
        Text.AppendAssoc(fa.value, fi.value, [last]);
      }
    }
  }

  /** What `filter_existing_nodes_only` returns. */
  function FilterSpec(client: ApiClient.LineageApiClient, ctx: DatabaseContext, nodes: seq<Node>, edges: seq<LineageEdge>)
    : Result<(seq<Node>, seq<LineageEdge>)>
  {
    var kept :- FilterNodes(client, ctx, nodes);
    var keptEdges :- FilterEdges(edges, NodeIds(kept));
    Ok((kept, keptEdges))
  }

  /** The existence check of one node: the `try` around `get_entity`. */
  method CheckNode(client: ApiClient.LineageApiClient, ctx: DatabaseContext, node: Node) returns (d: Result<bool>)
    ensures d == NodeDecision(client, ctx, node)
  {
    var fqn := Fqn(ctx, node.dbSchema, node.name);
    var found := ApiClient.GetEntity(client.http, client.urls, Table, fqn);
    if found.Ok? {
      d := Ok(true);
    } else if found.error.AirflowError? && Contains(found.error.message, "404") {
      d := Ok(false);
    } else {
      d := Err(found.error);
    }
  }

  /** The node loop of `filter_existing_nodes_only`. */
  method KeepExistingNodes(nodes: seq<Node>, client: ApiClient.LineageApiClient, ctx: DatabaseContext)
    returns (r: Result<seq<Node>>, ghost validIds: set<int>)
    ensures r == FilterNodes(client, ctx, nodes)
    ensures r.Ok? ==> validIds == NodeIds(r.value)
  {
    var existing: seq<Node> := [];
    validIds := {};
    var i := 0;
    while i < |nodes|
      invariant 0 <= i <= |nodes|
      invariant FilterNodes(client, ctx, nodes[..i]) == Ok(existing)
      invariant validIds == NodeIds(existing)
    {
      var node := nodes[i];
      assert nodes[..i + 1][..i] == nodes[..i];
      var d := CheckNode(client, ctx, node);
      if d.Err? {
        FilterNodesSticky(client, ctx, nodes, i + 1);
        return Err(d.error), validIds;
      } else if d.value {
        KeepStep(existing, node);
        existing := existing + [node];
        validIds := validIds + {node.id};
      }
      i := i + 1;
    }
    assert nodes[..i] == nodes;
    r := Ok(existing);
  }

  lemma KeepStep(existing: seq<Node>, node: Node)
    ensures NodeIds(existing + [node]) == NodeIds(existing) + {node.id}
  {
    NodeIdsSnoc(existing + [node], |existing|);
    assert (existing + [node])[..|existing|] == existing;
    assert (existing + [node])[..|existing| + 1] == existing + [node];
  }

  method FilterExistingNodesOnly(nodes: seq<Node>, edges: seq<LineageEdge>, client: ApiClient.LineageApiClient, ctx: DatabaseContext)
    returns (r: Result<(seq<Node>, seq<LineageEdge>)>)
    ensures r == FilterSpec(client, ctx, nodes, edges)
  {
    var existing, validIds := KeepExistingNodes(nodes, client, ctx);
    if existing.Err? {
      return Err(existing.error);
    }
    var validEdges := FilterEdges(edges, NodeIds(existing.value));
    if validEdges.Err? {
      return Err(validEdges.error);
    }
    return Ok((existing.value, validEdges.value));
  }

  // ---------------------------------------------------------------- extract_pairs_from_graph_paths

  /** `{node.id: node for node in nodes}`: the last node with each id. */
  function IdToNode(nodes: seq<Node>): (m: map<int, Node>)
    ensures m.Keys == NodeIds(nodes)
    ensures forall id :: id in m ==> m[id] in nodes && m[id].id == id
    decreases |nodes|
  {
    if nodes == [] then map[]
    else
      var init := nodes[..|nodes| - 1];
      var last := nodes[|nodes| - 1];
      NodeIdsSnoc(nodes, |nodes| - 1);
      assert nodes[..|nodes| - 1 + 1] == nodes;
      assert forall n :: n in init ==> n in nodes;
      IdToNode(init)[last.id := last]
  }

  /** The pair for one graph edge: both ends as TABLE references in the context. */
  function PairFor(m: map<int, Node>, e: Edge, ctx: DatabaseContext): EntityPair
    requires e.0 in m && e.1 in m
  {
    EntityPair(TypedFQN(Table, Fqn(ctx, m[e.0].dbSchema, m[e.0].name)),
               TypedFQN(Table, Fqn(ctx, m[e.1].dbSchema, m[e.1].name)))
  }

  /** The pairs the edge loop collects: one per edge with both ends known, equal pairs
      counted once. */
  function EdgePairs(es: seq<Edge>, m: map<int, Node>, ctx: DatabaseContext): set<EntityPair>
  {
    set e | e in es && e.0 in m && e.1 in m :: PairFor(m, e, ctx)
  }

  /** The pairs build references the same way `to_typed_fqn` does. */
  lemma PairForAgrees(m: map<int, Node>, e: Edge, ctx: DatabaseContext)
    requires e.0 in m && e.1 in m
    ensures PairFor(m, e, ctx) == EntityPair(ToTypedFqn(m[e.0], ctx), ToTypedFqn(m[e.1], ctx))
  {
  }

  lemma EdgePairsSnoc(es: seq<Edge>, e: Edge, m: map<int, Node>, ctx: DatabaseContext)
    ensures EdgePairs(es + [e], m, ctx) == EdgePairs(es, m, ctx) + (if e.0 in m && e.1 in m then {PairFor(m, e, ctx)} else {})
  {
    forall p ensures p in EdgePairs(es + [e], m, ctx) <==> p in EdgePairs(es, m, ctx) || (e.0 in m && e.1 in m && p == PairFor(m, e, ctx)) {
      if p in EdgePairs(es + [e], m, ctx) {
        var x :| x in es + [e] && x.0 in m && x.1 in m && PairFor(m, x, ctx) == p;
        if x != e {
          assert x in es;
        }
      }
    }
  }

  /** Deduplication: there are never more pairs than edges. */
  lemma {:induction false} EdgePairsBound(es: seq<Edge>, m: map<int, Node>, ctx: DatabaseContext)
    ensures |EdgePairs(es, m, ctx)| <= |es|
    decreases |es|
  {
    if es != [] {
      var init := es[..|es| - 1];
      EdgePairsBound(init, m, ctx);
      assert es == init + [es[|es| - 1]];
      EdgePairsSnoc(init, es[|es| - 1], m, ctx);
    }
  }

  lemma EdgePairsSameMembers(es1: seq<Edge>, es2: seq<Edge>, m: map<int, Node>, ctx: DatabaseContext)
    requires forall e: Edge :: e.0 in m && e.1 in m ==> (e in es1 <==> e in es2)
    ensures EdgePairs(es1, m, ctx) == EdgePairs(es2, m, ctx)
  {
    forall p ensures p in EdgePairs(es1, m, ctx) <==> p in EdgePairs(es2, m, ctx) {
      if p in EdgePairs(es1, m, ctx) {
        var x :| x in es1 && x.0 in m && x.1 in m && PairFor(m, x, ctx) == p;
        assert x in es2;
      }
      if p in EdgePairs(es2, m, ctx) {
        var x :| x in es2 && x.0 in m && x.1 in m && PairFor(m, x, ctx) == p;
        assert x in es1;
      }
    }
  }

  /** The built graph has exactly the parsed edges between input ids. */
  lemma GraphEdgeMembers(nodes: seq<Node>, edges: seq<LineageEdge>, g: SimpleDiGraph)
    requires ParseEdges(edges).Ok? && g.Valid()
    requires g.attrs.Keys == NodeIds(nodes)
    requires Tracks(g.adjOrder, g.adj, Kept(ParseEdges(edges).value, NodeIds(nodes)))
    ensures forall e :: e in g.Edges() <==> e in ParseEdges(edges).value && e.0 in NodeIds(nodes) && e.1 in NodeIds(nodes)
  {
    forall e ensures e in g.Edges() <==> e in ParseEdges(edges).value && e.0 in NodeIds(nodes) && e.1 in NodeIds(nodes) {
      BuildGraphEdges(nodes, edges, g, e);
    }
  }

  /** The edge loop of `extract_pairs_from_graph_paths`. */
  method CollectPairs(graphEdges: seq<Edge>, idToNode: map<int, Node>, ctx: DatabaseContext) returns (pairs: set<EntityPair>)
    ensures pairs == EdgePairs(graphEdges, idToNode, ctx)
  {
    pairs := {};
    var i := 0;
    while i < |graphEdges|
      invariant 0 <= i <= |graphEdges|
      invariant pairs == EdgePairs(graphEdges[..i], idToNode, ctx)
    {
      var (fromId, toId) := graphEdges[i];
      assert graphEdges[..i + 1] == graphEdges[..i] + [graphEdges[i]];
      EdgePairsSnoc(graphEdges[..i], graphEdges[i], idToNode, ctx);
      if fromId in idToNode && toId in idToNode {
        var fromNode, toNode := idToNode[fromId], idToNode[toId];
        var source := TypedFQN(Table, Fqn(ctx, fromNode.dbSchema, fromNode.name));
        var target := TypedFQN(Table, Fqn(ctx, toNode.dbSchema, toNode.name));
        pairs := pairs + {EntityPair(source, target)};
      }
      i := i + 1;
    }
    assert graphEdges[..i] == graphEdges;
  }

  /** The nodes and edges the graph is built from: filtered when existence is to be
      checked and a client is given, as they are otherwise. */
  function GraphInput(nodes: seq<Node>, edges: seq<LineageEdge>, ctx: DatabaseContext,
                      client: Option<ApiClient.LineageApiClient>, validateExistence: bool): Result<(seq<Node>, seq<LineageEdge>)>
  {
    if validateExistence && client.Some? then FilterSpec(client.value, ctx, nodes, edges) else Ok((nodes, edges))
  }

  const BuildFailurePrefix: string := "Failed to build lineage graph: "

  /** `extract_pairs_from_graph_paths`: one pair per distinct graph edge, no transitive
      pairs. The pairs come out in the unspecified order of `list(set)`. */
  method ExtractPairsFromGraphPaths(nodes: seq<Node>, edges: seq<LineageEdge>, ctx: DatabaseContext,
                                    client: Option<ApiClient.LineageApiClient>, validateExistence: bool,
                                    collapseTriggers: bool, triggerOperatorId: Option<int>)
    returns (r: Result<seq<EntityPair>>)
    ensures var input := GraphInput(nodes, edges, ctx, client, validateExistence);
      && (input.Err? ==> r == Err(input.error))
      && (input.Ok? && validateExistence && client.Some? && input.value.0 == [] ==> r == Ok([]))
      && (input.Ok? && !(validateExistence && client.Some? && input.value.0 == []) ==>
            && (ParseEdges(input.value.1).Err? ==>
                  r == Err(AirflowError(BuildFailurePrefix + Message(ParseEdges(input.value.1).error))))
            && (ParseEdges(input.value.1).Ok? ==>
                  && r.Ok? && NoDup(r.value)
                  && forall p :: p in r.value <==> p in EdgePairs(ParseEdges(input.value.1).value, IdToNode(input.value.0), ctx)))
  {
    var ns, es := nodes, edges;
    if validateExistence && client.Some? {
      var filtered := FilterExistingNodesOnly(nodes, edges, client.value, ctx);
      if filtered.Err? {
        return Err(filtered.error);
      }
      ns, es := filtered.value.0, filtered.value.1;
      if ns == [] {
        return Ok([]);
      }
    }
    var built := BuildGraph(ns, es, collapseTriggers, triggerOperatorId);
    if built.Err? {
      return Err(AirflowError(BuildFailurePrefix + Message(built.error)));
    }
    var graph := built.value;
    var idToNode := IdToNode(ns);
    var graphEdges := graph.Edges();
    GraphEdgeMembers(ns, es, graph);
    var pairs := CollectPairs(graphEdges, idToNode, ctx);
    EdgePairsSameMembers(graphEdges, ParseEdges(es).value, idToNode, ctx);
    var listed := ListOfSet(pairs);
    r := Ok(listed);
  }
}
