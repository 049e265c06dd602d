/** Description sync (lineage_core/services/omd_use_cases/description_sync.py): table and
    column descriptions of the operational store are copied to the catalog. The catalog
    writes are recorded as a trace of patch calls; a failed patch is logged and the loop
    goes on, so the trace does not depend on the outcome of a patch. */
module DescriptionSync {
  import opened Outcomes
  import opened Types
  import opened Models
  import opened ResponseModels
  import opened NodeRepository
  import opened MetadataCache
  import Text

  /** One catalog write: the table description, or the description of the column at an
      index. */
  datatype PatchCall =
    | TablePatch(fqn: string, description: string)
    | ColumnPatch(fqn: string, columnIndex: nat, description: string)

  function PatchDescription(c: PatchCall): string
  {
    c.description
  }

  /** Python truthiness of an optional string. */
  predicate Truthy(s: Option<string>)
  {
    s.Some? && s.value != ""
  }

  /** The index of the first column named `name`. */
  function FirstMatch(cols: seq<OMDColumn>, name: string): (r: Option<nat>)
    ensures r.Some? ==> r.value < |cols| && cols[r.value].name == name
    ensures r.Some? ==> forall j :: 0 <= j < r.value ==> cols[j].name != name
    ensures r.None? ==> forall j :: 0 <= j < |cols| ==> cols[j].name != name
    decreases |cols|
  {
    if cols == [] then None
    else if cols[0].name == name then Some(0)
    else
      var rest := FirstMatch(cols[1..], name);
      if rest.Some? then Some(rest.value + 1) else None
  }

  /** `_get_column_index`: a failed table read gives no index. */
  function ColumnIndex(catalog: Catalog, tableFqn: string, name: string): Option<nat>
  {
    var entity := catalog.getEntity(Table, tableFqn);
    if entity.Err? then None else FirstMatch(entity.value.columns, name)
  }

  /** The patch for one `(column, description)` item of a node's dict. */
  function ColumnCall(catalog: Catalog, tableFqn: string, item: (string, Option<string>)): seq<PatchCall>
  {
    if !Truthy(item.1) then []
    else
      var index := ColumnIndex(catalog, tableFqn, item.0);
      if index.Some? then [ColumnPatch(tableFqn, index.value, item.1.value)] else []
  }

  function ColumnCalls(catalog: Catalog, tableFqn: string, items: seq<(string, Option<string>)>): seq<PatchCall>
    decreases |items|
  {
    if items == [] then []
    else ColumnCalls(catalog, tableFqn, items[..|items| - 1]) + ColumnCall(catalog, tableFqn, items[|items| - 1])
  }

  /** The column dict read for a node: empty when the read fails. */
  function ColumnsOf(query: ColumnsQuery, nodeId: int): seq<(string, Option<string>)>
  {
    var rows := query(nodeId);
    if rows.Err? then [] else ColumnsDict(rows.value)
  }

  /** The calls `sync_descriptions_for_nodes` makes for one node. */
  function NodeCalls(catalog: Catalog, query: ColumnsQuery, ctx: DatabaseContext, node: Node): seq<PatchCall>
  {
    var fqn := Fqn(ctx, node.dbSchema, node.name);
    (if Truthy(node.description) then [TablePatch(fqn, node.description.value)] else [])
      + ColumnCalls(catalog, fqn, ColumnsOf(query, node.id))
  }

  /** The calls for all nodes, node after node. */
  function SyncCalls(catalog: Catalog, query: ColumnsQuery, ctx: DatabaseContext, nodes: seq<Node>): seq<PatchCall>
    decreases |nodes|
  {
    if nodes == [] then []
    else SyncCalls(catalog, query, ctx, nodes[..|nodes| - 1]) + NodeCalls(catalog, query, ctx, nodes[|nodes| - 1])
  }

  /** Every column patch of a table goes to the first column of that name, with a
      non-empty description. */
  lemma {:induction false} ColumnCallsSound(catalog: Catalog, tableFqn: string, items: seq<(string, Option<string>)>)
    ensures forall c :: c in ColumnCalls(catalog, tableFqn, items) ==>
      && c.ColumnPatch? && c.fqn == tableFqn && c.description != ""
      && (exists k :: 0 <= k < |items| && items[k].1 == Some(c.description) && ColumnIndex(catalog, tableFqn, items[k].0) == Some(c.columnIndex))
    decreases |items|
  {
    if items != [] {
      var init := items[..|items| - 1];
      ColumnCallsSound(catalog, tableFqn, init);
      forall c | c in ColumnCalls(catalog, tableFqn, items)
        ensures exists k :: 0 <= k < |items| && items[k].1 == Some(c.description) && ColumnIndex(catalog, tableFqn, items[k].0) == Some(c.columnIndex)
      {
        if c in ColumnCalls(catalog, tableFqn, init) {
          var k :| 0 <= k < |init| && init[k].1 == Some(c.description) && ColumnIndex(catalog, tableFqn, init[k].0) == Some(c.columnIndex);
          assert items[k] == init[k];
        } else {
          assert c in ColumnCall(catalog, tableFqn, items[|items| - 1]);
        }
      }
    }
  }

  /** Every item with a non-empty description whose column is found is sent: to the
      first column of that name, with that description. */
  lemma {:induction false} ColumnCallsComplete(catalog: Catalog, tableFqn: string, items: seq<(string, Option<string>)>)
    ensures forall k :: 0 <= k < |items| && Truthy(items[k].1) && ColumnIndex(catalog, tableFqn, items[k].0).Some? ==>
      ColumnPatch(tableFqn, ColumnIndex(catalog, tableFqn, items[k].0).value, items[k].1.value) in ColumnCalls(catalog, tableFqn, items)
    decreases |items|
  {
    if items != [] {
      var init, last := items[..|items| - 1], items[|items| - 1];
      ColumnCallsComplete(catalog, tableFqn, init);
      assert ColumnCalls(catalog, tableFqn, items) == ColumnCalls(catalog, tableFqn, init) + ColumnCall(catalog, tableFqn, last);
      forall k | 0 <= k < |items| - 1
        ensures items[k] == init[k]
      {
      }
    }
  }

  /** The patches follow the items: those for `a + b` are those for `a`, then those for
      `b`. */
  lemma {:induction false} ColumnCallsAppend(catalog: Catalog, tableFqn: string, a: seq<(string, Option<string>)>,
                                             b: seq<(string, Option<string>)>)
    ensures ColumnCalls(catalog, tableFqn, a + b) == ColumnCalls(catalog, tableFqn, a) + ColumnCalls(catalog, tableFqn, b)
    decreases |b|
  {
    if b == [] {
      assert a + b == a;
    } else {
      var init, last := b[..|b| - 1], b[|b| - 1];
      assert (a + b)[..|a + b| - 1] == a + init;
      assert (a + b)[|a + b| - 1] == last;
      ColumnCallsAppend(catalog, tableFqn, a, init);
      Text.AppendAssoc(ColumnCalls(catalog, tableFqn, a), ColumnCalls(catalog, tableFqn, init), ColumnCall(catalog, tableFqn, last));
    }
  }

  /** A node gets a table patch exactly when its description is non-empty; the patch
      comes first and carries that description. */
  lemma NodeTablePatch(catalog: Catalog, query: ColumnsQuery, ctx: DatabaseContext, node: Node)
    ensures var calls := NodeCalls(catalog, query, ctx, node);
      && (Truthy(node.description) <==> (exists c :: c in calls && c.TablePatch?))
      && (Truthy(node.description) ==> calls[0] == TablePatch(Fqn(ctx, node.dbSchema, node.name), node.description.value))
  {
    var fqn := Fqn(ctx, node.dbSchema, node.name);
    var calls := NodeCalls(catalog, query, ctx, node);
    ColumnCallsSound(catalog, fqn, ColumnsOf(query, node.id));
    if Truthy(node.description) {
      assert calls[0] in calls;
    }
  }

  /** Nothing with an empty or missing description is ever sent. */
  lemma {:induction false} SyncCallsNonEmpty(catalog: Catalog, query: ColumnsQuery, ctx: DatabaseContext, nodes: seq<Node>)
    ensures forall c :: c in SyncCalls(catalog, query, ctx, nodes) ==> PatchDescription(c) != ""
    decreases |nodes|
  {
    if nodes != [] {
      var last := nodes[|nodes| - 1];
      SyncCallsNonEmpty(catalog, query, ctx, nodes[..|nodes| - 1]);
      ColumnCallsSound(catalog, Fqn(ctx, last.dbSchema, last.name), ColumnsOf(query, last.id));
    }
  }

  class DescriptionSyncService {
    const nodeRepo: ColumnsQuery
    const omdClient: Catalog
    const dbContext: DatabaseContext

    constructor (nodeRepo: ColumnsQuery, omdClient: Catalog, dbContext: DatabaseContext)
      ensures this.nodeRepo == nodeRepo && this.omdClient == omdClient && this.dbContext == dbContext
    {
      this.nodeRepo := nodeRepo;
      this.omdClient := omdClient;
      this.dbContext := dbContext;
    }

    /** `_get_column_index`: the early-return search over the table's columns. */
    method GetColumnIndex(tableFqn: string, columnName: string) returns (r: Option<nat>)
      ensures r == ColumnIndex(omdClient, tableFqn, columnName)
    {
      var tableEntity := omdClient.getEntity(Table, tableFqn);
      if tableEntity.Err? {
        return None;
      }
      var cols := tableEntity.value.columns;
      var i := 0;
      while i < |cols|
        invariant 0 <= i <= |cols|
        invariant forall j :: 0 <= j < i ==> cols[j].name != columnName
      {
        if cols[i].name == columnName {
          FirstMatchIs(cols, columnName, i);
          return Some(i);
        }
        i := i + 1;
      }
      return None;
    }

    /** The column loop of `sync_descriptions_for_nodes` for one table. */
    method SyncColumns(nodeFqn: string, columnsDescriptions: seq<(string, Option<string>)>) returns (calls: seq<PatchCall>)
      ensures calls == ColumnCalls(omdClient, nodeFqn, columnsDescriptions)
    {
      calls := [];
      var j := 0;
      while j < |columnsDescriptions|
        invariant 0 <= j <= |columnsDescriptions|
        invariant calls == ColumnCalls(omdClient, nodeFqn, columnsDescriptions[..j])
      {
        assert columnsDescriptions[..j + 1][..j] == columnsDescriptions[..j];
        var (colName, colDescription) := columnsDescriptions[j];
        if Truthy(colDescription) {
          var colIndex := GetColumnIndex(nodeFqn, colName);
          if colIndex.Some? {
            calls := calls + [ColumnPatch(nodeFqn, colIndex.value, colDescription.value)];
          }
        }
        j := j + 1;
      }
      assert columnsDescriptions[..j] == columnsDescriptions;
    }

    /** The body of the node loop of `sync_descriptions_for_nodes`. */
    method SyncNode(node: Node) returns (calls: seq<PatchCall>)
      ensures calls == NodeCalls(omdClient, nodeRepo, dbContext, node)
    {
      var nodeFqn := Fqn(dbContext, node.dbSchema, node.name);
      calls := [];
      if Truthy(node.description) {
        calls := [TablePatch(nodeFqn, node.description.value)];
      }
      var columnsDescriptions := FetchColumnsDescriptions(nodeRepo, node.id);
      if columnsDescriptions == [] {
        return;
      }
      var columnCalls := SyncColumns(nodeFqn, columnsDescriptions);
      calls := calls + columnCalls;
    }

    /** `sync_descriptions_for_nodes`: the patch calls, in the order they are sent. */
    method SyncDescriptionsForNodes(nodes: seq<Node>) returns (calls: seq<PatchCall>)
      ensures calls == SyncCalls(omdClient, nodeRepo, dbContext, nodes)
    {
      calls := [];
      var i := 0;
      while i < |nodes|
        invariant 0 <= i <= |nodes|
        invariant calls == SyncCalls(omdClient, nodeRepo, dbContext, nodes[..i])
      {
        assert nodes[..i + 1][..i] == nodes[..i];
        var nodeCalls := SyncNode(nodes[i]);
        calls := calls + nodeCalls;
        i := i + 1;
      }
      assert nodes[..i] == nodes;
    }
  }

  lemma FirstMatchIs(cols: seq<OMDColumn>, name: string, i: nat)
    requires i < |cols| && cols[i].name == name
    requires forall j :: 0 <= j < i ==> cols[j].name != name
    ensures FirstMatch(cols, name) == Some(i)
  {
    var r := FirstMatch(cols, name);
    assert r.Some?;
  }
}
