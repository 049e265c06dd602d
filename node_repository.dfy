/** The node repository (lineage_core/adapters/node_repository.py): rows of the
    operational store become nodes and edges, and the incremental read splits the
    changed nodes into active and inactive ones. The SQL text and the driver are not
    modelled: a statement is known by the named parameters it references, and the
    database is a function from statement and parameters to rows. Time stamps are
    integer seconds. */
module NodeRepository {
  import opened Outcomes
  import opened Text
  import opened Types
  import opened Models

  datatype Statement =
    | FetchNodesSql(changedFilter: bool)
    | FetchEdgesSql
    | FetchNodesAdditionalSql
    | FetchNodesIncrementalSql

  /** A query parameter. An id list is only used through `= any(...)`, so only its
      members matter. */
  datatype ParamValue = IntParam(i: int) | StrParam(s: string) | StrsParam(ss: seq<string>) | IdsParam(ids: set<int>) | TimeParam(t: Option<int>)

  type Params = map<string, ParamValue>

  /** The `%(name)s` placeholders of each statement's text, in the order they appear. */
  function PlaceholderList(st: Statement): seq<string>
  {
    match st
    case FetchNodesSql(changedFilter) =>
      ["tag_id", "schemas", "state", "operator_id"] + (if changedFilter then ["last_executed", "safety_window_hours"] else [])
    case FetchEdgesSql => ["node_ids"]
    case FetchNodesAdditionalSql => ["node_ids", "state", "operator_id"]
    case FetchNodesIncrementalSql => ["tag_id", "schemas", "operator_id", "last_executed", "safety_window_hours"]
  }

  function Placeholders(st: Statement): set<string>
  {
    set i | 0 <= i < |PlaceholderList(st)| :: PlaceholderList(st)[i]
  }

  /** The first placeholder of `names` that `params` does not fill. */
  function FirstMissing(names: seq<string>, params: Params): (r: Option<string>)
    ensures r.None? <==> forall i :: 0 <= i < |names| ==> names[i] in params.Keys
    ensures r.Some? ==> r.value !in params.Keys && r.value in names
    decreases |names|
  {
    if names == [] then None
    else if names[0] !in params.Keys then Some(names[0])
    else
      var rest := FirstMissing(names[1..], params);
      assert forall i :: 1 <= i < |names| ==> names[i] == names[1..][i - 1];
      rest
  }

  /** The store: the rows of a statement run with complete parameters, or its error. */
  type Database = (Statement, Params) -> Result<seq<Attrs>>

  /** `cur.execute(query, params)` then `fetchall()`: the driver fills the placeholders
      from the mapping first, and the first one without a parameter raises `KeyError`. */
  function Execute(db: Database, st: Statement, params: Params): (r: Result<seq<Attrs>>)
    ensures Placeholders(st) <= params.Keys ==> r == db(st, params)
    ensures !(Placeholders(st) <= params.Keys) ==> r.Err? && r.error.KeyError? && r.error.message in Placeholders(st) - params.Keys
  {
    var missing := FirstMissing(PlaceholderList(st), params);
    if missing.None? then db(st, params)
    else
      var names := PlaceholderList(st);
      var i :| 0 <= i < |names| && names[i] == missing.value;
      Err(KeyError(missing.value))
  }

  // ---------------------------------------------------------------- _rows_to_nodes

  /** The nodes the rows validate to, in order; a row that fails validation is skipped. */
  function NodesOfRows(rows: seq<Attrs>): (r: seq<Node>)
    ensures |r| <= |rows|
    decreases |rows|
  {
    if rows == [] then []
    else
      var n := NodeFromRow(rows[|rows| - 1]);
      NodesOfRows(rows[..|rows| - 1]) + (if n.Some? then [n.value] else [])
  }

  /** Every node comes from a row of its own. */
  lemma {:induction false} NodesOfRowsFrom(rows: seq<Attrs>, n: Node)
    requires n in NodesOfRows(rows)
    ensures exists k :: 0 <= k < |rows| && NodeFromRow(rows[k]) == Some(n)
    decreases |rows|
  {
    var init := rows[..|rows| - 1];
    if n in NodesOfRows(init) {
      NodesOfRowsFrom(init, n);
      var k :| 0 <= k < |init| && NodeFromRow(init[k]) == Some(n);
      assert rows[k] == init[k];
    } else {
      assert NodeFromRow(rows[|rows| - 1]) == Some(n);
    }
  }

  function Dumps(nodes: seq<Node>): (r: seq<Attrs>)
    ensures |r| == |nodes|
    decreases |nodes|
  {
    if nodes == [] then [] else Dumps(nodes[..|nodes| - 1]) + [NodeDump(nodes[|nodes| - 1])]
  }

  /** Rows that are dumps of nodes give those nodes back, none skipped. */
  lemma {:induction false} NodesOfDumps(nodes: seq<Node>)
    ensures NodesOfRows(Dumps(nodes)) == nodes
    decreases |nodes|
  {
    if nodes != [] {
      var rows := Dumps(nodes);
      var init, last := nodes[..|nodes| - 1], nodes[|nodes| - 1];
      assert rows[..|rows| - 1] == Dumps(init) && rows[|rows| - 1] == NodeDump(last);
      NodesOfDumps(init);
      NodeFromDump(last);
      assert NodesOfRows(rows) == init + [last];
      assert init + [last] == nodes;
    }
  }

  /** `_rows_to_nodes`, with the count of rows that failed. */
  method RowsToNodes(rows: seq<Attrs>) returns (nodes: seq<Node>, failedCount: nat)
    ensures nodes == NodesOfRows(rows)
    ensures failedCount == |rows| - |nodes|
  {
    nodes, failedCount := [], 0;
    var i := 0;
    while i < |rows|
      invariant 0 <= i <= |rows|
      invariant nodes == NodesOfRows(rows[..i])
      invariant failedCount == i - |nodes|
    {
      assert rows[..i + 1][..i] == rows[..i];
      var node := NodeFromRow(rows[i]);
      if node.Some? {
        nodes := nodes + [node.value];
      } else {
        failedCount := failedCount + 1;
      }
      i := i + 1;
    }
    assert rows[..i] == rows;
  }

  // ---------------------------------------------------------------- _rows_to_edges

  /** Python `str()` of a column value; a time stamp prints as its seconds count. */
  function AttrString(v: AttrValue): string
  {
    match v
    case IntAttr(i) => IntToString(i)
    case StrAttr(s) => s
    case TimeAttr(t) => IntToString(t)
    case NoneAttr => "None"
  }

  /** One edge row: both id columns, stringified, with TABLE at both ends; a missing column
      raises and the row is skipped. */
  function EdgeOfRow(row: Attrs): (r: Option<LineageEdge>)
    ensures r.Some? <==> "from_node_id" in row && "to_node_id" in row
    ensures r.Some? ==> r.value.fromEntity.typ == Table && r.value.toEntity.typ == Table
  {
    if "from_node_id" in row && "to_node_id" in row then
      Some(LineageEdge(EntityRef(AttrString(row["from_node_id"]), Table), EntityRef(AttrString(row["to_node_id"]), Table)))
    else None
  }

  function EdgesOfRows(rows: seq<Attrs>): (r: seq<LineageEdge>)
    ensures |r| <= |rows|
    decreases |rows|
  {
    if rows == [] then []
    else
      var e := EdgeOfRow(rows[|rows| - 1]);
      EdgesOfRows(rows[..|rows| - 1]) + (if e.Some? then [e.value] else [])
  }

  /** Integer id columns survive the round trip through `str` and `int`. */
  lemma IntIdsRoundTrip(row: Attrs, i: int, j: int)
    requires "from_node_id" in row && row["from_node_id"] == IntAttr(i)
    requires "to_node_id" in row && row["to_node_id"] == IntAttr(j)
    ensures EdgeOfRow(row).Some?
    ensures ParseInt(EdgeOfRow(row).value.fromEntity.id) == Ok(i)
    ensures ParseInt(EdgeOfRow(row).value.toEntity.id) == Ok(j)
  {
    ParseIntToString(i);
    ParseIntToString(j);
  }

  /** Every edge read is TABLE to TABLE. */
  lemma {:induction false} EdgesOfRowsTables(rows: seq<Attrs>)
    ensures forall e :: e in EdgesOfRows(rows) ==> e.fromEntity.typ == Table && e.toEntity.typ == Table
    decreases |rows|
  {
    if rows != [] {
      EdgesOfRowsTables(rows[..|rows| - 1]);
    }
  }

  /** `_rows_to_edges`, with the count of rows that failed. */
  method RowsToEdges(rows: seq<Attrs>) returns (edges: seq<LineageEdge>, failedCount: nat)
    ensures edges == EdgesOfRows(rows)
    ensures failedCount == |rows| - |edges|
  {
    edges, failedCount := [], 0;
    var i := 0;
    while i < |rows|
      invariant 0 <= i <= |rows|
      invariant edges == EdgesOfRows(rows[..i])
      invariant failedCount == i - |edges|
    {
      assert rows[..i + 1][..i] == rows[..i];
      var edge := EdgeOfRow(rows[i]);
      if edge.Some? {
        edges := edges + [edge.value];
      } else {
        failedCount := failedCount + 1;
      }
      i := i + 1;
    }
    assert rows[..i] == rows;
  }

  // ---------------------------------------------------------------- the reads

  const DefaultSafetyWindowHours: int := 48

  /** The parameters of `fetch_nodes` as the source builds them. */
  function FetchNodesParamsAsWritten(tagId: int, schemas: seq<string>, state: string, operatorId: int,
                                     safetyWindowHours: int): Params
  {
    map["tag_id" := IntParam(tagId), "schemas" := StrsParam(schemas), "state" := StrParam(state),
        "operator_id" := IntParam(operatorId), "safety_window_hours" := IntParam(safetyWindowHours)]
  }

  /** As written, the changed-since filter references `last_executed`, which the
      parameters lack: every call that passes a time stamp raises `KeyError`. */
  lemma FetchNodesAsWrittenRaises(db: Database, tagId: int, schemas: seq<string>, state: string, operatorId: int,
                                  lastExecuted: int, safetyWindowHours: int)
    ensures Execute(db, FetchNodesSql(true), FetchNodesParamsAsWritten(tagId, schemas, state, operatorId, safetyWindowHours))
      == Err(KeyError("last_executed"))
  {
    var params := FetchNodesParamsAsWritten(tagId, schemas, state, operatorId, safetyWindowHours);
    var names := PlaceholderList(FetchNodesSql(true));
    assert names == ["tag_id", "schemas", "state", "operator_id", "last_executed", "safety_window_hours"];
    assert names[4..] == ["last_executed", "safety_window_hours"];
    assert FirstMissing(names[4..], params) == Some("last_executed");
    assert FirstMissing(names[3..], params) == FirstMissing(names[4..], params) by { assert names[3..][1..] == names[4..]; }
    assert FirstMissing(names[2..], params) == FirstMissing(names[3..], params) by { assert names[2..][1..] == names[3..]; }
    assert FirstMissing(names[1..], params) == FirstMissing(names[2..], params) by { assert names[1..][1..] == names[2..]; }
  }

  /** The parameters with the time stamp the filter needs: the source's dict, plus
      `last_executed` exactly when a time stamp is given. */
  function FetchNodesParams(tagId: int, schemas: seq<string>, state: string, operatorId: int,
                            lastExecuted: Option<int>, safetyWindowHours: int): (p: Params)
    ensures Placeholders(FetchNodesSql(lastExecuted.Some?)) <= p.Keys
    ensures var written := FetchNodesParamsAsWritten(tagId, schemas, state, operatorId, safetyWindowHours);
      && p.Keys == written.Keys + (if lastExecuted.Some? then {"last_executed"} else {})
      && (forall k :: k in written ==> p[k] == written[k])
      && (lastExecuted.Some? ==> p["last_executed"] == TimeParam(lastExecuted))
  {
    var written := FetchNodesParamsAsWritten(tagId, schemas, state, operatorId, safetyWindowHours);
    if lastExecuted.Some? then written["last_executed" := TimeParam(lastExecuted)] else written
  }

  /** `fetch_nodes`: the changed-since filter is added exactly when a time stamp is given;
      the store's error propagates. */
  method FetchNodes(db: Database, tagId: int, schemas: seq<string>, state: string, operatorId: int,
                    lastExecuted: Option<int>, safetyWindowHours: int)
    returns (r: Result<seq<Node>>)
    ensures var rows := db(FetchNodesSql(lastExecuted.Some?), FetchNodesParams(tagId, schemas, state, operatorId, lastExecuted, safetyWindowHours));
      && (rows.Err? ==> r == Err(rows.error))
      && (rows.Ok? ==> r == Ok(NodesOfRows(rows.value)))
  {
    var st := FetchNodesSql(lastExecuted.Some?);
    var rows :- Execute(db, st, FetchNodesParams(tagId, schemas, state, operatorId, lastExecuted, safetyWindowHours));
    var nodes, _ := RowsToNodes(rows);
    r := Ok(nodes);
  }

  /** `fetch_edges`: the dependency rows touching the given nodes. */
  method FetchEdges(db: Database, nodeIds: set<int>) returns (r: Result<seq<LineageEdge>>)
    ensures var rows := db(FetchEdgesSql, map["node_ids" := IdsParam(nodeIds)]);
      && (rows.Err? ==> r == Err(rows.error))
      && (rows.Ok? ==> r == Ok(EdgesOfRows(rows.value)))
  {
    var rows :- Execute(db, FetchEdgesSql, map["node_ids" := IdsParam(nodeIds)]);
    var edges, _ := RowsToEdges(rows);
    r := Ok(edges);
  }

  function AdditionalParams(operatorId: int, nodeIds: set<int>, state: string): Params
  {
    map["node_ids" := IdsParam(nodeIds), "state" := StrParam(state), "operator_id" := IntParam(operatorId)]
  }

  /** `fetch_nodes_additional_for_edges`: no ids, no query. */
  method FetchNodesAdditionalForEdges(db: Database, operatorId: int, nodeIds: set<int>, state: string)
    returns (r: Result<seq<Node>>)
    ensures nodeIds == {} ==> r == Ok([])
    ensures nodeIds != {} ==> var rows := db(FetchNodesAdditionalSql, AdditionalParams(operatorId, nodeIds, state));
      && (rows.Err? ==> r == Err(rows.error))
      && (rows.Ok? ==> r == Ok(NodesOfRows(rows.value)))
  {
    if nodeIds == {} {
      return Ok([]);
    }
    var rows :- Execute(db, FetchNodesAdditionalSql, AdditionalParams(operatorId, nodeIds, state));
    var nodes, _ := RowsToNodes(rows);
    r := Ok(nodes);
  }

  // ---------------------------------------------------------------- incremental partition

  /** `node.updated and node.updated > threshold`: a time stamp is always truthy. */
  predicate ChangedAfter(n: Node, threshold: int)
  {
    n.updated.Some? && n.updated.value > threshold
  }

  function Changed(nodes: seq<Node>, threshold: int): (r: seq<Node>)
    ensures |r| <= |nodes|
    decreases |nodes|
  {
    if nodes == [] then []
    else
      var last := nodes[|nodes| - 1];
      Changed(nodes[..|nodes| - 1], threshold) + (if ChangedAfter(last, threshold) then [last] else [])
  }

  /** The nodes whose state is (`accepted == true`) or is not `'accepted'`, in order. */
  function WithStateAccepted(nodes: seq<Node>, accepted: bool): seq<Node>
    decreases |nodes|
  {
    if nodes == [] then []
    else
      var last := nodes[|nodes| - 1];
      WithStateAccepted(nodes[..|nodes| - 1], accepted) + (if (last.state == DefaultNodeState) == accepted then [last] else [])
  }

  /** The active and inactive lists split the changed nodes: each changed node lands in
      exactly one of them, by its state, and every node in them changed. */
  lemma {:induction false} IncrementalPartition(nodes: seq<Node>, threshold: int)
    ensures var changed := Changed(nodes, threshold);
      var active := WithStateAccepted(changed, true);
      var inactive := WithStateAccepted(changed, false);
      && multiset(active) + multiset(inactive) == multiset(changed)
      && (forall n :: n in active ==> n.state == DefaultNodeState && ChangedAfter(n, threshold))
      && (forall n :: n in inactive ==> n.state != DefaultNodeState && ChangedAfter(n, threshold))
  {
    var changed := Changed(nodes, threshold);
    ChangedFacts(nodes, threshold);
    SplitFacts(changed);
  }

  lemma {:induction false} ChangedFacts(nodes: seq<Node>, threshold: int)
    ensures forall n :: n in Changed(nodes, threshold) <==> n in nodes && ChangedAfter(n, threshold)
    decreases |nodes|
  {
    if nodes != [] {
      var init := nodes[..|nodes| - 1];
      ChangedFacts(init, threshold);
      assert nodes == init + [nodes[|nodes| - 1]];
    }
  }

  lemma {:induction false} SplitFacts(changed: seq<Node>)
    ensures multiset(WithStateAccepted(changed, true)) + multiset(WithStateAccepted(changed, false)) == multiset(changed)
    ensures forall n :: n in WithStateAccepted(changed, true) ==> n in changed && n.state == DefaultNodeState
    ensures forall n :: n in WithStateAccepted(changed, false) ==> n in changed && n.state != DefaultNodeState
    decreases |changed|
  {
    if changed != [] {
      var init := changed[..|changed| - 1];
      SplitFacts(init);
      assert changed == init + [changed[|changed| - 1]];
    }
  }

  const NoneMinusTimedeltaMessage: string := "unsupported operand type(s) for -: 'NoneType' and 'datetime.timedelta'"

  function IncrementalParams(tagId: int, schemas: seq<string>, operatorId: int, lastExecuted: Option<int>,
                             safetyWindowHours: int): (p: Params)
    ensures Placeholders(FetchNodesIncrementalSql) <= p.Keys
  {
    map["tag_id" := IntParam(tagId), "schemas" := StrsParam(schemas), "operator_id" := IntParam(operatorId),
        "last_executed" := TimeParam(lastExecuted), "safety_window_hours" := IntParam(safetyWindowHours)]
  }

  /** `fetch_nodes_for_incremental`: the latest version of each node, the changed ones since
      `last_executed` minus the safety window, split by state. Without a time stamp the
      subtraction raises `TypeError` after the query. */
  method FetchNodesForIncremental(db: Database, tagId: int, schemas: seq<string>, operatorId: int,
                                  lastExecuted: Option<int>, safetyWindowHours: int)
    returns (r: Result<(seq<Node>, seq<Node>)>)
    ensures var rows := db(FetchNodesIncrementalSql, IncrementalParams(tagId, schemas, operatorId, lastExecuted, safetyWindowHours));
      && (rows.Err? ==> r == Err(rows.error))
      && (rows.Ok? && lastExecuted.None? ==> r == Err(TypeError(NoneMinusTimedeltaMessage)))
      && (rows.Ok? && lastExecuted.Some? ==>
            var changed := Changed(NodesOfRows(rows.value), lastExecuted.value - safetyWindowHours * 3600);
            r == Ok((WithStateAccepted(changed, true), WithStateAccepted(changed, false))))
  {
    var rows :- Execute(db, FetchNodesIncrementalSql, IncrementalParams(tagId, schemas, operatorId, lastExecuted, safetyWindowHours));
    var allLatestNodes, _ := RowsToNodes(rows);
    if lastExecuted.None? {
      return Err(TypeError(NoneMinusTimedeltaMessage));
    }
    var safetyThreshold := lastExecuted.value - safetyWindowHours * 3600;
    var changedNodes := Changed(allLatestNodes, safetyThreshold);
    r := Ok((WithStateAccepted(changedNodes, true), WithStateAccepted(changedNodes, false)));
  }

  // ---------------------------------------------------------------- column descriptions

  /** A row of the column-description query: the column name and its description. */
  datatype ColumnRow = ColumnRow(columnName: string, description: Option<string>)

  type ColumnsQuery = int -> Result<seq<ColumnRow>>

  /** `d[k] = v` on a dict kept as its items in insertion order: an existing key keeps
      its place and takes the new value, a new key goes last. */
  function DictSet(items: seq<(string, Option<string>)>, k: string, v: Option<string>): (r: seq<(string, Option<string>)>)
    decreases |items|
  {
    if items == [] then [(k, v)]
    else if items[0].0 == k then [(k, v)] + items[1..]
    else [items[0]] + DictSet(items[1..], k, v)
  }

  predicate KeysDistinct(items: seq<(string, Option<string>)>)
  {
    forall i, j :: 0 <= i < j < |items| ==> items[i].0 != items[j].0
  }

  function KeysOf(items: seq<(string, Option<string>)>): set<string>
  {
    set i | 0 <= i < |items| :: items[i].0
  }

  lemma KeysOfCons(e: (string, Option<string>), t: seq<(string, Option<string>)>)
    ensures KeysOf([e] + t) == {e.0} + KeysOf(t)
  {
    var l := [e] + t;
    forall x ensures x in KeysOf(l) <==> x in {e.0} + KeysOf(t) {
      assert l[0].0 == e.0;
      if x in KeysOf(t) {
        var i :| 0 <= i < |t| && t[i].0 == x;
        assert l[i + 1].0 == x;
      }
      if x in KeysOf(l) && x != e.0 {
        var i :| 0 <= i < |l| && l[i].0 == x;
        assert t[i - 1].0 == x;
      }
    }
  }

  lemma {:induction false} DictSetKeys(items: seq<(string, Option<string>)>, k: string, v: Option<string>)
    ensures KeysOf(DictSet(items, k, v)) == KeysOf(items) + {k}
    decreases |items|
  {
    if items == [] {
      assert KeysOf([(k, v)]) == {k} by { KeysOfCons((k, v), []); }
    } else {
      assert items == [items[0]] + items[1..];
      KeysOfCons(items[0], items[1..]);
      if items[0].0 == k {
        KeysOfCons((k, v), items[1..]);
      } else {
        DictSetKeys(items[1..], k, v);
        KeysOfCons(items[0], DictSet(items[1..], k, v));
      }
    }
  }

  lemma {:induction false} DictSetDistinct(items: seq<(string, Option<string>)>, k: string, v: Option<string>)
    requires KeysDistinct(items)
    ensures KeysDistinct(DictSet(items, k, v))
    decreases |items|
  {
    var r := DictSet(items, k, v);
    if items != [] && items[0].0 == k {
      assert forall i :: 1 <= i < |r| ==> r[i] == items[i];
    } else if items != [] {
      var tail := items[1..];
      assert forall i :: 0 <= i < |tail| ==> tail[i] == items[i + 1];
      DictSetDistinct(tail, k, v);
      DictSetKeys(tail, k, v);
      var rt := DictSet(tail, k, v);
      assert items[0].0 !in KeysOf(tail);
      forall i, j | 0 <= i < j < |r| ensures r[i].0 != r[j].0 {
        if i == 0 {
          assert r[j] == rt[j - 1];
          assert rt[j - 1].0 in KeysOf(rt);
        } else {
          assert r[i] == rt[i - 1] && r[j] == rt[j - 1];
        }
      }
    }
  }

  lemma {:induction false} DictSetEntries(items: seq<(string, Option<string>)>, k: string, v: Option<string>)
    ensures (k, v) in DictSet(items, k, v)
    ensures forall e :: e in DictSet(items, k, v) && e.0 != k ==> e in items
    decreases |items|
  {
    if items != [] && items[0].0 != k {
      DictSetEntries(items[1..], k, v);
      assert items == [items[0]] + items[1..];
    } else if items != [] {
      assert items == [items[0]] + items[1..];
    }
  }

  /** The dict the rows fill, later rows overwriting earlier ones. */
  function ColumnsDict(rows: seq<ColumnRow>): seq<(string, Option<string>)>
    decreases |rows|
  {
    if rows == [] then []
    else
      var last := rows[|rows| - 1];
      DictSet(ColumnsDict(rows[..|rows| - 1]), last.columnName, last.description)
  }

  /** Each column name appears once, and carries the description of its last row. */
  lemma {:induction false} ColumnsDictFacts(rows: seq<ColumnRow>)
    ensures KeysDistinct(ColumnsDict(rows))
    ensures KeysOf(ColumnsDict(rows)) == set k | 0 <= k < |rows| :: rows[k].columnName
    ensures |rows| > 0 ==> (rows[|rows| - 1].columnName, rows[|rows| - 1].description) in ColumnsDict(rows)
    decreases |rows|
  {
    if rows != [] {
      var init := rows[..|rows| - 1];
      var last := rows[|rows| - 1];
      ColumnsDictFacts(init);
      DictSetDistinct(ColumnsDict(init), last.columnName, last.description);
      DictSetKeys(ColumnsDict(init), last.columnName, last.description);
      DictSetEntries(ColumnsDict(init), last.columnName, last.description);
      NamesSnoc(rows, init);
    }
  }

  lemma NamesSnoc(rows: seq<ColumnRow>, init: seq<ColumnRow>)
    requires rows != [] && init == rows[..|rows| - 1]
    ensures (set k | 0 <= k < |rows| :: rows[k].columnName)
         == (set k | 0 <= k < |init| :: init[k].columnName) + {rows[|rows| - 1].columnName}
  {
    var last := rows[|rows| - 1];
    var a := set k | 0 <= k < |rows| :: rows[k].columnName;
    var b := set k | 0 <= k < |init| :: init[k].columnName;
    forall x ensures x in a <==> x in b + {last.columnName} {
      if x in b {
        var k :| 0 <= k < |init| && init[k].columnName == x;
        assert rows[k].columnName == x;
      }
      if x in a && x != last.columnName {
        var k :| 0 <= k < |rows| && rows[k].columnName == x;
        assert init[k].columnName == x;
      }
    }
  }

  /** `fetch_columns_descriptions`: an error leaves the dict empty and is swallowed. */
  method FetchColumnsDescriptions(query: ColumnsQuery, nodeId: int) returns (descriptions: seq<(string, Option<string>)>)
    ensures query(nodeId).Err? ==> descriptions == []
    ensures query(nodeId).Ok? ==> descriptions == ColumnsDict(query(nodeId).value)
  {
    descriptions := [];
    var rows := query(nodeId);
    if rows.Err? {
      return;
    }
    var i := 0;
    while i < |rows.value|
      invariant 0 <= i <= |rows.value|
      invariant descriptions == ColumnsDict(rows.value[..i])
    {
      assert rows.value[..i + 1][..i] == rows.value[..i];
      var row := rows.value[i];
      descriptions := DictSet(descriptions, row.columnName, row.description);
      i := i + 1;
    }
    assert rows.value[..i] == rows.value;
  }
}
