/** Cache lookup of an entity reference (lineage_core/utils/entity_utils.py). */
module EntityUtils {
  import opened Outcomes
  import opened Types
  import opened Models
  import opened UseCases

  /** The key under which the metadata cache stores an entity. */
  function CacheKeyOf(e: TypedFQN): (string, string)
  {
    (EntityTypeValue(e.typ), e.fqn)
  }

  /** `to_entity_ref`: the cached entity's id with the requested type, or a ValueError
      naming the fqn when the cache has no entry under `(type value, fqn)`. */
  function ToEntityRef(e: TypedFQN, cache: EntityCache): (r: Result<EntityRef>)
    ensures r.Ok? <==> CacheKeyOf(e) in cache
    ensures r.Ok? ==> r.value.id == cache[CacheKeyOf(e)].id && r.value.typ == e.typ
    ensures r.Err? ==> r.error == ValueError("Entity with FQN '" + e.fqn + "' not found in cache.")
  {
    var key := CacheKeyOf(e);
    if key !in cache then Err(ValueError("Entity with FQN '" + e.fqn + "' not found in cache."))
    else Ok(EntityRef(cache[key].id, e.typ))
  }

  /** Two references of different types never share a cache key. */
  lemma CacheKeyInjective(a: TypedFQN, b: TypedFQN)
    ensures CacheKeyOf(a) == CacheKeyOf(b) <==> a == b
  {
    if CacheKeyOf(a) == CacheKeyOf(b) {
      EntityTypeValueInjective(a.typ, b.typ);
    }
  }
}
