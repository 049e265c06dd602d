/** Enumerations and frozen value types of the lineage domain
    (lineage_core/domain/types.py). Dafny datatypes compare structurally, which is
    the frozen-dataclass equality (and hashing) the source relies on in sets. */
module Types {

  datatype EntityType = Table | Dashboard | Pipeline | Topic

  /** The str-enum value of an entity type. */
  function EntityTypeValue(t: EntityType): (v: string)
    ensures |v| > 0 && ':' !in v
  {
    match t
    case Table => "table"
    case Dashboard => "dashboard"
    case Pipeline => "pipeline"
    case Topic => "topic"
  }

  /** The text of an entity type inside an f-string. `EntityType` mixes `str` into a plain
      `Enum`, so from Python 3.11 on `format()` gives the class and member name, as
      `str()` does, rather than the value; the model assumes Python 3.11 or later. */
  function EntityTypeStr(t: EntityType): string
  {
    match t
    case Table => "EntityType.TABLE"
    case Dashboard => "EntityType.DASHBOARD"
    case Pipeline => "EntityType.PIPELINE"
    case Topic => "EntityType.TOPIC"
  }

  lemma EntityTypeValueInjective(a: EntityType, b: EntityType)
    ensures EntityTypeValue(a) == EntityTypeValue(b) <==> a == b
  {
  }

  datatype MappingType = OneToOne | OneToMany | ManyToOne | ManyToMany

  datatype LineageLoadType = Init | Incremental

  function LoadTypeValue(t: LineageLoadType): string
  {
    match t
    case Init => "init"
    case Incremental => "incremental"
  }

  /** `s == LineageLoadType.X` for a str-enum: a plain string equals the member whose value it is. */
  predicate LoadTypeIs(s: string, t: LineageLoadType)
  {
    s == LoadTypeValue(t)
  }

  lemma LoadTypeIsValue(a: LineageLoadType, b: LineageLoadType)
    ensures LoadTypeIs(LoadTypeValue(a), b) <==> a == b
  {
  }

  datatype TypedFQN = TypedFQN(typ: EntityType, fqn: string)

  datatype EntityPair = EntityPair(source: TypedFQN, target: TypedFQN)

  /** The `(source.fqn, target.fqn)` tuple by which the catalog knows an edge. */
  function FqnTuple(p: EntityPair): (string, string)
  {
    (p.source.fqn, p.target.fqn)
  }

  /** The set of fqn tuples of a list of pairs. */
  function FqnTuples(pairs: seq<EntityPair>): (r: set<(string, string)>)
    ensures forall i :: 0 <= i < |pairs| ==> FqnTuple(pairs[i]) in r
    ensures forall e :: e in r ==> exists i :: 0 <= i < |pairs| && FqnTuple(pairs[i]) == e
  {
    set i | 0 <= i < |pairs| :: FqnTuple(pairs[i])
  }
}
