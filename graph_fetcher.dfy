/** The graph fetcher (lineage_core/entrypoints/lineage_graph_fetcher.py): which reads of
    the node repository make up an initial or an incremental load. The connection is a
    parameter `connect` that turns the chosen connection provider into a store. */
module GraphFetcher {
  import opened Outcomes
  import opened Types
  import opened Models
  import opened SimpleGraph
  import opened GraphBuilder
  import opened NodeRepository

  datatype LineageGraphResult = LineageGraphResult(nodes: seq<Node>, edges: seq<LineageEdge>, affectedFqns: Option<set<string>>)

  /** Where the connection parameters come from. */
  datatype ConnectionProvider = AirflowConnection(connId: string) | SettingsConnection(settings: Settings)

  type Connect = ConnectionProvider -> Database

  const NoProviderMessage: string := "Either \"database_conn_id\" or \"settings\" must be provided"

  /** `_get_provider`: a non-empty connection id wins, then the settings. */
  function GetProvider(databaseConnId: Option<string>, settings: Option<Settings>): (r: Result<ConnectionProvider>)
    ensures databaseConnId.Some? && databaseConnId.value != "" ==> r == Ok(AirflowConnection(databaseConnId.value))
    ensures !(databaseConnId.Some? && databaseConnId.value != "") && settings.Some? ==> r == Ok(SettingsConnection(settings.value))
    ensures r.Err? <==> !(databaseConnId.Some? && databaseConnId.value != "") && settings.None?
    ensures r.Err? ==> r.error == ValueError(NoProviderMessage)
  {
    if databaseConnId.Some? && databaseConnId.value != "" then Ok(AirflowConnection(databaseConnId.value))
    else if settings.Some? then Ok(SettingsConnection(settings.value))
    else Err(ValueError(NoProviderMessage))
  }

  /** `self.schema_filter or self.settings.schema_filter`: an absent or empty operator
      filter falls back to the settings. */
  function Schemas(schemaFilter: Option<seq<string>>, settings: Settings): (r: seq<string>)
    ensures schemaFilter.Some? && schemaFilter.value != [] ==> r == schemaFilter.value
    ensures !(schemaFilter.Some? && schemaFilter.value != []) ==> r == settings.schemaFilter
  {
    if schemaFilter.Some? && schemaFilter.value != [] then schemaFilter.value else settings.schemaFilter
  }

  /** The context fqns of the given nodes. */
  function AffectedFqns(ctx: DatabaseContext, nodes: seq<Node>): set<string>
  {
    set i | 0 <= i < |nodes| :: Fqn(ctx, nodes[i].dbSchema, nodes[i].name)
  }

  //---------------------------------------------------------------- _add_missing_nodes

  /** The endpoint ids of the edges that are not in `existing`. */
  function Required(existing: set<int>, es: seq<Edge>): (r: set<int>)
    ensures forall x :: x in r ==> x !in existing
  {
    (set i | 0 <= i < |es| :: es[i].0) + (set i | 0 <= i < |es| :: es[i].1) - existing
  }

  lemma RequiredSnoc(existing: set<int>, es: seq<Edge>, e: Edge)
    ensures Required(existing, es + [e]) ==
      Required(existing, es) + (if e.0 in existing then {} else {e.0}) + (if e.1 in existing then {} else {e.1})
  {
    var es' := es + [e];
    assert es'[|es|] == e;
    forall x | x in Required(existing, es') ensures x in Required(existing, es) + {e.0, e.1} {
      if exists i :: 0 <= i < |es| && es'[i].0 == x {
        var i :| 0 <= i < |es| && es'[i].0 == x;
        assert es[i].0 == x;
      } else if exists i :: 0 <= i < |es| && es'[i].1 == x {
        var i :| 0 <= i < |es| && es'[i].1 == x;
        assert es[i].1 == x;
      }
    }
    forall x | x in Required(existing, es) ensures x in Required(existing, es') {
      if exists i :: 0 <= i < |es| && es[i].0 == x {
        var i :| 0 <= i < |es| && es[i].0 == x;
        assert es'[i].0 == x;
      } else {
        var i :| 0 <= i < |es| && es[i].1 == x;
        assert es'[i].1 == x;
      }
    }
  }

  lemma ParseEdgesSnoc(edges: seq<LineageEdge>, j: nat)
    requires j < |edges| && ParseEdges(edges[..j]).Ok? && ParseEdge(edges[j]).Ok?
    ensures ParseEdges(edges[..j + 1]) == Ok(ParseEdges(edges[..j]).value + [ParseEdge(edges[j]).value])
  {
    assert edges[..j + 1][..j] == edges[..j];
  }

  /** What `_add_missing_nodes` yields: the first unparsable id raises `ValueError`; with
      no missing endpoint the nodes come back as they are and nothing is read; otherwise
      the nodes are followed by the additional nodes the store returns for the missing
      ids. */
  ghost predicate AddMissingOutcome(db: Database, operatorId: int, state: string, nodes: seq<Node>,
                                    edges: seq<LineageEdge>, r: Result<seq<Node>>)
  {
    var parsed := ParseEdges(edges);
    && (parsed.Err? ==> r == Err(parsed.error))
    && (parsed.Ok? ==>
          var req := Required(NodeIds(nodes), parsed.value);
          && (req == {} ==> r == Ok(nodes))
          && (req != {} ==>
                var rows := db(FetchNodesAdditionalSql, AdditionalParams(operatorId, req, state));
                && (rows.Err? ==> r == Err(rows.error))
                && (rows.Ok? ==> r == Ok(nodes + NodesOfRows(rows.value)))))
  }

  method AddMissingNodes(db: Database, operatorId: int, state: string, nodes: seq<Node>, edges: seq<LineageEdge>)
    returns (r: Result<seq<Node>>)
    ensures AddMissingOutcome(db, operatorId, state, nodes, edges, r)
  {
    var existing := NodeIds(nodes);
    var required: set<int> := {};
    var i := 0;
    while i < |edges|
      invariant 0 <= i <= |edges|
      invariant ParseEdges(edges[..i]).Ok?
      invariant required == Required(existing, ParseEdges(edges[..i]).value)
    {
      var e := ParseEdge(edges[i]);
      if e.Err? {
        ParseStepErr(edges, i);
        return Err(e.error);
      }
      ParseEdgesSnoc(edges, i);
      RequiredSnoc(existing, ParseEdges(edges[..i]).value, e.value);
      var (fromId, toId) := e.value;
      if fromId !in existing {
        required := required + {fromId};
      }
      if toId !in existing {
        required := required + {toId};
      }
      i := i + 1;
    }
    assert edges[..i] == edges;
    if required == {} {
      return Ok(nodes);
    }
    var extras :- FetchNodesAdditionalForEdges(db, operatorId, required, state);
    r := Ok(nodes + extras);
  }

  /** When the store returns a node for every missing id, every endpoint of every edge is
      a node of the result: the graph built from it drops no edge. */
  lemma {:induction false} AddMissingCloses(nodes: seq<Node>, es: seq<Edge>, extras: seq<Node>)
    requires forall x :: x in Required(NodeIds(nodes), es) ==> x in NodeIds(extras)
    ensures forall i :: 0 <= i < |es| ==> es[i].0 in NodeIds(nodes + extras) && es[i].1 in NodeIds(nodes + extras)
  {
    var all := nodes + extras;
    forall i | 0 <= i < |es| ensures es[i].0 in NodeIds(all) && es[i].1 in NodeIds(all) {
      InAppend(nodes, extras, es[i].0);
      InAppend(nodes, extras, es[i].1);
    }
  }

  lemma InAppend(a: seq<Node>, b: seq<Node>, x: int)
    requires x in NodeIds(a) || x in NodeIds(b)
    ensures x in NodeIds(a + b)
  {
    if x in NodeIds(a) {
      var k :| 0 <= k < |a| && a[k].id == x;
      assert (a + b)[k].id == x;
    } else {
      var k :| 0 <= k < |b| && b[k].id == x;
      assert (a + b)[|a| + k].id == x;
    }
  }

  //---------------------------------------------------------------- the two loads

  /** The result of `_fetch_init` for the store of a run: the nodes of the schemas,
      their edges, and the missing endpoint nodes. */
  ghost predicate InitOutcome(db: Database, s: Settings, schemas: seq<string>, r: Result<LineageGraphResult>)
  {
    var rows := db(FetchNodesSql(s.lastExecuted.Some?), FetchNodesParams(s.tagId, schemas, s.state, s.operatorId, s.lastExecuted, DefaultSafetyWindowHours));
    && (rows.Err? ==> r == Err(rows.error))
    && (rows.Ok? ==>
          var nodes := NodesOfRows(rows.value);
          var erows := db(FetchEdgesSql, map["node_ids" := IdsParam(NodeIds(nodes))]);
          && (erows.Err? ==> r == Err(erows.error))
          && (erows.Ok? ==>
                var edges := EdgesOfRows(erows.value);
                && (r.Ok? ==> r.value.edges == edges && r.value.affectedFqns == None)
                && AddMissingOutcome(db, s.operatorId, s.state, nodes, edges, NodesOf(r))))
  }

  function NodesOf(r: Result<LineageGraphResult>): Result<seq<Node>>
  {
    if r.Ok? then Ok(r.value.nodes) else Err(r.error)
  }

  /** The result of `_fetch_incremental`: only the active changed nodes are loaded, the
      fqns of all changed nodes are reported, edges are read only for a non-empty node
      list, and missing nodes only for a non-empty edge list. */
  ghost predicate IncrementalOutcome(db: Database, s: Settings, schemas: seq<string>, r: Result<LineageGraphResult>)
  {
    var rows := db(FetchNodesIncrementalSql, IncrementalParams(s.tagId, schemas, s.operatorId, s.lastExecuted, DefaultSafetyWindowHours));
    && (rows.Err? ==> r == Err(rows.error))
    && (rows.Ok? && s.lastExecuted.None? ==> r == Err(TypeError(NoneMinusTimedeltaMessage)))
    && (rows.Ok? && s.lastExecuted.Some? ==>
          var changed := Changed(NodesOfRows(rows.value), s.lastExecuted.value - DefaultSafetyWindowHours * 3600);
          var active := WithStateAccepted(changed, true);
          var affected := AffectedFqns(s.context, active + WithStateAccepted(changed, false));
          EdgesOutcome(db, s, active, affected, r))
  }

  /** The second half of the incremental load, once the active changed nodes and the
      affected fqns are known. */
  ghost predicate EdgesOutcome(db: Database, s: Settings, active: seq<Node>, affected: set<string>, r: Result<LineageGraphResult>)
  {
    && (active == [] ==> r == Ok(LineageGraphResult([], [], Some(affected))))
    && (active != [] ==>
          var erows := db(FetchEdgesSql, map["node_ids" := IdsParam(NodeIds(active))]);
          && (erows.Err? ==> r == Err(erows.error))
          && (erows.Ok? ==>
                var edges := EdgesOfRows(erows.value);
                && (r.Ok? ==> r.value.edges == edges && r.value.affectedFqns == Some(affected))
                && (edges == [] ==> r == Ok(LineageGraphResult(active, [], Some(affected))))
                && (edges != [] ==> AddMissingOutcome(db, s.operatorId, s.state, active, edges, NodesOf(r)))))
  }

  /** Edges of the active nodes, then the nodes the edges need. */
  method FetchEdgesAndMissing(db: Database, s: Settings, active: seq<Node>, affected: set<string>)
    returns (r: Result<LineageGraphResult>)
    ensures EdgesOutcome(db, s, active, affected, r)
  {
    var nodes := active;
    var edges: seq<LineageEdge> := [];
    if nodes != [] {
      edges :- FetchEdges(db, NodeIds(nodes));
    }
    if edges != [] {
      nodes :- AddMissingNodes(db, s.operatorId, s.state, nodes, edges);
    }
    r := Ok(LineageGraphResult(nodes, edges, Some(affected)));
  }

  class LineageGraphFetcher {
    const settings: Settings
    const databaseConnId: Option<string>
    const schemaFilter: Option<seq<string>>

    constructor (settings: Settings, databaseConnId: Option<string>, schemaFilter: Option<seq<string>>)
      ensures this.settings == settings && this.databaseConnId == databaseConnId && this.schemaFilter == schemaFilter
    {
      this.settings := settings;
      this.databaseConnId := databaseConnId;
      this.schemaFilter := schemaFilter;
    }

    /** The provider of a fetcher, which always has settings. */
    function Provider(): (p: ConnectionProvider)
      ensures Ok(p) == GetProvider(databaseConnId, Some(settings))
    {
      GetProvider(databaseConnId, Some(settings)).value
    }

    method FetchInit(connect: Connect) returns (r: Result<LineageGraphResult>)
      ensures InitOutcome(connect(Provider()), settings, Schemas(schemaFilter, settings), r)
    {
      var schemas := Schemas(schemaFilter, settings);
      var provider := Provider();
      var db := connect(provider);
      var nodes :- FetchNodes(db, settings.tagId, schemas, settings.state, settings.operatorId,
                              settings.lastExecuted, DefaultSafetyWindowHours);
      var edges :- FetchEdges(db, NodeIds(nodes));
      var all :- AddMissingNodes(db, settings.operatorId, settings.state, nodes, edges);
      r := Ok(LineageGraphResult(all, edges, None));
    }

    method FetchIncremental(connect: Connect) returns (r: Result<LineageGraphResult>)
      ensures IncrementalOutcome(connect(Provider()), settings, Schemas(schemaFilter, settings), r)
    {
      var schemas := Schemas(schemaFilter, settings);
      var provider := Provider();
      var db := connect(provider);
      var split :- FetchNodesForIncremental(db, settings.tagId, schemas, settings.operatorId,
                                            settings.lastExecuted, DefaultSafetyWindowHours);
      var (active, inactive) := split;
      var affectedFqns := AffectedFqns(settings.context, active + inactive);
      r := FetchEdgesAndMissing(db, settings, active, affectedFqns);
    }

    /** `fetch`: the initial load for INIT, the incremental one otherwise. */
    method Fetch(connect: Connect) returns (r: Result<LineageGraphResult>)
      ensures settings.loadType == Init ==> InitOutcome(connect(Provider()), settings, Schemas(schemaFilter, settings), r)
      ensures settings.loadType != Init ==> IncrementalOutcome(connect(Provider()), settings, Schemas(schemaFilter, settings), r)
    {
      if settings.loadType == Init {
        r := FetchInit(connect);
      } else {
        r := FetchIncremental(connect);
      }
    }
  }

  /** Settings left at their defaults load incrementally with no time stamp: unless the
      store fails first, the fetch raises `TypeError`. */
  lemma DefaultSettingsIncrementalFails(db: Database, schemas: seq<string>, r: Result<LineageGraphResult>)
    requires IncrementalOutcome(db, DefaultSettings(), schemas, r)
    ensures r.Err?
    ensures db(FetchNodesIncrementalSql, IncrementalParams(60, schemas, 14, None, DefaultSafetyWindowHours)).Ok? ==>
      r == Err(TypeError(NoneMinusTimedeltaMessage))
  {
  }
}
