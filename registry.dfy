/** The entity-type to URL-path registry (lineage_core/domain/registry.py). */
module Registry {
  import opened Outcomes
  import opened Types

  const EntityPaths: map<EntityType, string> :=
    map[Table := "tables", Dashboard := "dashboards", Pipeline := "pipelines", Topic := "topics"]

  /** `EntityRegistry.get_path`: the mapped path, or the AirflowException for a type missing
      from the map. The map covers every member, so the error branch is never taken. */
  function GetPath(t: EntityType): (r: Result<string>)
    ensures r.Ok?
    ensures r.value == EntityTypeValue(t) + "s"
  {
    if t in EntityPaths then Ok(EntityPaths[t])
    else Err(AirflowError("Unsupported entity type: " + EntityTypeStr(t)))
  }

  /** The four paths are pairwise distinct. */
  lemma PathsInjective(a: EntityType, b: EntityType)
    ensures GetPath(a) == GetPath(b) ==> a == b
  {
    var pa, pb := GetPath(a).value, GetPath(b).value;
    if pa == pb {
      assert pa[..|pa| - 1] == EntityTypeValue(a);
      assert pb[..|pb| - 1] == EntityTypeValue(b);
      EntityTypeValueInjective(a, b);
    }
  }

  /** `EntityRegistryPathResolver.get_path`: delegates to the registry. */
  function ResolverGetPath(t: EntityType): (r: Result<string>)
    ensures r == GetPath(t)
  {
    GetPath(t)
  }
}
