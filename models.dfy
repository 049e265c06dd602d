/** Records of the lineage domain (lineage_core/domain/models.py): entity references,
    edges, graph nodes, the database naming context and the run settings. */
module Models {
  import opened Outcomes
  import opened Text
  import opened Types

  datatype EntityRef = EntityRef(id: string, typ: EntityType)

  datatype LineageEdge = LineageEdge(fromEntity: EntityRef, toEntity: EntityRef)

  datatype LineagePayload = LineagePayload(edge: LineageEdge)

  /** A node of the operational store; time stamps are integer seconds. */
  datatype Node = Node(
    id: int,
    name: string,
    namespaceId: int,
    dbSchema: string,
    updated: Option<int>,
    state: string,
    description: Option<string>)

  const DefaultNodeState: string := "accepted"

  /** The constructor call that leaves `state` and `description` to their defaults. */
  function NewNode(id: int, name: string, namespaceId: int, dbSchema: string, updated: Option<int>): (n: Node)
    ensures n.state == DefaultNodeState && n.description == None
    ensures n.id == id && n.name == name && n.namespaceId == namespaceId && n.dbSchema == dbSchema
    ensures n.updated == updated
  {
    Node(id, name, namespaceId, dbSchema, updated, DefaultNodeState, None)
  }

  /** A value of a keyword-attribute bag (a `model_dump()` or a database row). */
  datatype AttrValue = IntAttr(i: int) | StrAttr(s: string) | TimeAttr(t: int) | NoneAttr

  type Attrs = map<string, AttrValue>

  const NodeFieldNames: set<string> :=
    {"id", "name", "namespace_id", "db_schema", "updated", "state", "description"}

  /** `node.model_dump()`: exactly the seven fields of the record. */
  function NodeDump(n: Node): (a: Attrs)
    ensures a.Keys == NodeFieldNames
    ensures "operator_id" !in a
  {
    map[
      "id" := IntAttr(n.id),
      "name" := StrAttr(n.name),
      "namespace_id" := IntAttr(n.namespaceId),
      "db_schema" := StrAttr(n.dbSchema),
      "updated" := (if n.updated.Some? then TimeAttr(n.updated.value) else NoneAttr),
      "state" := StrAttr(n.state),
      "description" := (if n.description.Some? then StrAttr(n.description.value) else NoneAttr)
    ]
  }

  /** `Node(**row)`: the required fields must be present with the right kind of value,
      `state` and `description` may be absent, and other keys are ignored. */
  function NodeFromRow(row: Attrs): (r: Option<Node>)
    ensures r.Some? ==> "id" in row && row["id"] == IntAttr(r.value.id)
    ensures r.Some? ==> "updated" in row
  {
    if "id" in row && row["id"].IntAttr?
       && "name" in row && row["name"].StrAttr?
       && "namespace_id" in row && row["namespace_id"].IntAttr?
       && "db_schema" in row && row["db_schema"].StrAttr?
       && "updated" in row && (row["updated"].TimeAttr? || row["updated"].NoneAttr?)
       && ("state" in row ==> row["state"].StrAttr?)
       && ("description" in row ==> row["description"].StrAttr? || row["description"].NoneAttr?)
    then
      Some(Node(
        row["id"].i,
        row["name"].s,
        row["namespace_id"].i,
        row["db_schema"].s,
        if row["updated"].TimeAttr? then Some(row["updated"].t) else None,
        if "state" in row then row["state"].s else DefaultNodeState,
        if "description" in row && row["description"].StrAttr? then Some(row["description"].s) else None))
    else None
  }

  /** Validating a node's own dump gives the node back. */
  lemma NodeFromDump(n: Node)
    ensures NodeFromRow(NodeDump(n)) == Some(n)
  {
    var a := NodeDump(n);
    assert a["id"] == IntAttr(n.id);
    assert a["updated"] == (if n.updated.Some? then TimeAttr(n.updated.value) else NoneAttr);
    assert a["description"] == (if n.description.Some? then StrAttr(n.description.value) else NoneAttr);
  }

  datatype DatabaseContext = DatabaseContext(serviceName: string, databaseName: string)

  const DefaultContext: DatabaseContext := DatabaseContext("Sacristy", "sacristy")

  /** `DatabaseContext.fqn(schema, name)`: `service.database.schema.name`. */
  function Fqn(ctx: DatabaseContext, schema: string, name: string): string
  {
    ctx.serviceName + "." + ctx.databaseName + "." + schema + "." + name
  }

  predicate Dotless(s: string) { '.' !in s }

  /** When no part contains a dot, splitting the fqn at dots gives the four parts back. */
  lemma FqnSegments(ctx: DatabaseContext, schema: string, name: string)
    requires Dotless(ctx.serviceName) && Dotless(ctx.databaseName) && Dotless(schema) && Dotless(name)
    ensures Split(Fqn(ctx, schema, name), '.') == [ctx.serviceName, ctx.databaseName, schema, name]
  {
    assert Fqn(ctx, schema, name)
      == ctx.serviceName + ['.'] + ctx.databaseName + ['.'] + schema + ['.'] + name;
    SplitFour(ctx.serviceName, ctx.databaseName, schema, name, '.');
  }

  /** Under one context with dotless parts, distinct (schema, name) pairs get distinct fqns. */
  lemma FqnInjective(ctx: DatabaseContext, s1: string, n1: string, s2: string, n2: string)
    requires Dotless(ctx.serviceName) && Dotless(ctx.databaseName)
    requires Dotless(s1) && Dotless(n1) && Dotless(s2) && Dotless(n2)
    requires Fqn(ctx, s1, n1) == Fqn(ctx, s2, n2)
    ensures s1 == s2 && n1 == n2
  {
    FqnSegments(ctx, s1, n1);
    FqnSegments(ctx, s2, n2);
  }

  /** Under the default context every fqn starts with the `Sacristy.sacristy.` prefix. */
  lemma DefaultContextFqn(schema: string, name: string)
    ensures Fqn(DefaultContext, schema, name) == "Sacristy.sacristy." + schema + "." + name
  {
  }

  datatype Settings = Settings(
    tagId: int,
    schemaFilter: seq<string>,
    state: string,
    operatorId: int,
    lastExecuted: Option<int>,
    cleanBeforeUpdate: bool,
    loadType: LineageLoadType,
    context: DatabaseContext)

  /** `Settings()` with every field at its default. */
  function DefaultSettings(): (s: Settings)
    ensures s.tagId == 60 && s.operatorId == 14 && s.state == DefaultNodeState
    ensures !s.cleanBeforeUpdate && s.loadType == Incremental && s.lastExecuted == None
    ensures s.schemaFilter == ["sp_raw", "sp_stage", "sp_marts", "sp_features"]
    ensures s.context == DefaultContext
  {
    Settings(60, ["sp_raw", "sp_stage", "sp_marts", "sp_features"], "accepted", 14, None, false,
             Incremental, DefaultContext)
  }
}
