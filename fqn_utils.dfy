/** Graph node to table reference (lineage_core/utils/fqn_utils.py). */
module FqnUtils {
  import opened Types
  import opened Models
  import opened Text

  /** `to_typed_fqn`: a TABLE reference whose fqn is the four dotted segments
      service, database, schema and name. */
  function ToTypedFqn(node: Node, ctx: DatabaseContext): (r: TypedFQN)
    ensures r.typ == Table
    ensures Dotless(ctx.serviceName) && Dotless(ctx.databaseName) && Dotless(node.dbSchema) && Dotless(node.name) ==>
      Split(r.fqn, '.') == [ctx.serviceName, ctx.databaseName, node.dbSchema, node.name]
  {
    var fqn := Fqn(ctx, node.dbSchema, node.name);
    assert Dotless(ctx.serviceName) && Dotless(ctx.databaseName) && Dotless(node.dbSchema) && Dotless(node.name) ==>
      Split(fqn, '.') == [ctx.serviceName, ctx.databaseName, node.dbSchema, node.name] by {
      if Dotless(ctx.serviceName) && Dotless(ctx.databaseName) && Dotless(node.dbSchema) && Dotless(node.name) {
        FqnSegments(ctx, node.dbSchema, node.name);
      }
    }
    TypedFQN(Table, fqn)
  }

  /** Distinct dotless (schema, name) pairs give distinct references. */
  lemma ToTypedFqnInjective(a: Node, b: Node, ctx: DatabaseContext)
    requires Dotless(ctx.serviceName) && Dotless(ctx.databaseName)
    requires Dotless(a.dbSchema) && Dotless(a.name) && Dotless(b.dbSchema) && Dotless(b.name)
    requires ToTypedFqn(a, ctx) == ToTypedFqn(b, ctx)
    ensures a.dbSchema == b.dbSchema && a.name == b.name
  {
    FqnInjective(ctx, a.dbSchema, a.name, b.dbSchema, b.name);
  }
}
