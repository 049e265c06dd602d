/** The entity metadata cache, validator, fetcher and service
    (lineage_core/services/omd_use_cases/lineage_metadata_cache.py). The cache is an
    object whose two dictionaries are updated in place; the fetcher shares it with the
    service. The catalog reads are two functions; `ClientCatalog` gives those of the
    HTTP client of the `ApiClient` module. */
module MetadataCache {
  import opened Outcomes
  import opened Text
  import opened Types
  import opened ResponseModels
  import opened UseCases
  import opened EntityUtils
  import opened Registry
  import opened ApiClient

  /** `_cache_key_fqn`: `"{type.value}:{fqn}"`. */
  function CacheKeyFqn(t: EntityType, fqn: string): string
  {
    EntityTypeValue(t) + ":" + fqn
  }

  /** Type values hold no `':'`, so the first colon separates the two parts and the
      string key identifies the type and the fqn. */
  lemma CacheKeyFqnInjective(a: EntityType, fa: string, b: EntityType, fb: string)
    ensures CacheKeyFqn(a, fa) == CacheKeyFqn(b, fb) <==> a == b && fa == fb
  {
    var va, vb := EntityTypeValue(a), EntityTypeValue(b);
    if CacheKeyFqn(a, fa) == CacheKeyFqn(b, fb) {
      SplitFirst(va, ':', fa);
      SplitFirst(vb, ':', fb);
      assert va + [':'] + fa == CacheKeyFqn(a, fa);
      assert vb + [':'] + fb == CacheKeyFqn(b, fb);
      EntityTypeValueInjective(a, b);
      assert CacheKeyFqn(a, fa)[|va| + 1..] == fa;
      assert CacheKeyFqn(b, fb)[|vb| + 1..] == fb;
    }
  }

  /** The guard of the second store in `cache_entity`: a truthy id and fqn. */
  predicate HasIdAndFqn(e: OMDEntity)
  {
    |e.id| > 0 && HasFqn(e)
  }

  /** The entity map after `cache_entity(t, fqn, e)`: stored under the requested key and,
      when the entity carries an id and an fqn, under its canonical key as well. */
  function StoreEntity(ec: map<string, OMDEntity>, t: EntityType, fqn: string, e: OMDEntity)
    : (r: map<string, OMDEntity>)
    ensures CacheKeyFqn(t, fqn) in r && r[CacheKeyFqn(t, fqn)] == e
    ensures HasIdAndFqn(e) ==> CacheKeyFqn(t, e.fullyQualifiedName.value) in r && r[CacheKeyFqn(t, e.fullyQualifiedName.value)] == e
    ensures r.Keys == ec.Keys + {CacheKeyFqn(t, fqn)} + (if HasIdAndFqn(e) then {CacheKeyFqn(t, e.fullyQualifiedName.value)} else {})
    ensures forall k :: (k in ec && k != CacheKeyFqn(t, fqn) && !(HasIdAndFqn(e) && k == CacheKeyFqn(t, e.fullyQualifiedName.value))
      ==> r[k] == ec[k])
  {
    var stored := ec[CacheKeyFqn(t, fqn) := e];
    if HasIdAndFqn(e) then stored[CacheKeyFqn(t, e.fullyQualifiedName.value) := e] else stored
  }

  /** The id map after `cache_entity`: the entity's id is mapped to its fqn when both are
      truthy; otherwise nothing changes. */
  function StoreId(idc: map<string, string>, e: OMDEntity): (r: map<string, string>)
    ensures HasIdAndFqn(e) ==> r == idc[e.id := e.fullyQualifiedName.value]
    ensures !HasIdAndFqn(e) ==> r == idc
  {
    if HasIdAndFqn(e) then idc[e.id := e.fullyQualifiedName.value] else idc
  }

  class EntityCache {
    var entityCache: map<string, OMDEntity>
    var idToFqnCache: map<string, string>

    constructor ()
      ensures entityCache == map[] && idToFqnCache == map[]
    {
      entityCache, idToFqnCache := map[], map[];
    }

    /** `get_entity`: the entity under `"{type.value}:{fqn}"`, `None` when absent. */
    function GetEntity(t: EntityType, fqn: string): (r: Option<OMDEntity>)
      reads this
      ensures r.Some? <==> CacheKeyFqn(t, fqn) in entityCache
      ensures r.Some? ==> r.value == entityCache[CacheKeyFqn(t, fqn)]
    {
      var key := CacheKeyFqn(t, fqn);
      if key in entityCache then Some(entityCache[key]) else None
    }

    /** `cache_entity`. */
    method CacheEntity(t: EntityType, fqn: string, e: OMDEntity)
      modifies this
      ensures entityCache == StoreEntity(old(entityCache), t, fqn, e)
      ensures idToFqnCache == StoreId(old(idToFqnCache), e)
    {
      entityCache := entityCache[CacheKeyFqn(t, fqn) := e];
      if |e.id| > 0 && HasFqn(e) {
        idToFqnCache := idToFqnCache[e.id := e.fullyQualifiedName.value];
        entityCache := entityCache[CacheKeyFqn(t, e.fullyQualifiedName.value) := e];
      }
    }

    /** `get_fqn_by_id`: the mapped fqn, `None` when absent. */
    function GetFqnById(id: string): (r: Option<string>)
      reads this
      ensures r.Some? <==> id in idToFqnCache
      ensures r.Some? ==> r.value == idToFqnCache[id]
    {
      if id in idToFqnCache then Some(idToFqnCache[id]) else None
    }

    /** `cache_fqn_mapping`. */
    method CacheFqnMapping(id: string, fqn: string)
      modifies this
      ensures idToFqnCache == old(idToFqnCache)[id := fqn]
      ensures entityCache == old(entityCache)
    {
      idToFqnCache := idToFqnCache[id := fqn];
    }
  }

  function InvalidTypeMessage(item: TypedFQN, role: string, e: Error): string
  {
    "Invalid entity type " + EntityTypeStr(item.typ) + " for FQN " + item.fqn + " in " + role + ": " + Message(e)
  }

  /** What `validate_entities` decides: the first item whose type the resolver rejects
      raises, wrapped in an AirflowException naming it. */
  function Validation(resolver: EntityType -> Result<string>, entities: seq<TypedFQN>, role: string): (r: Result<()>)
    ensures r.Ok? <==> forall k :: 0 <= k < |entities| ==> resolver(entities[k].typ).Ok?
    ensures r.Err? ==> exists k :: (0 <= k < |entities| && resolver(entities[k].typ).Err?
      && (forall j :: 0 <= j < k ==> resolver(entities[j].typ).Ok?)
      && r.error == AirflowError(InvalidTypeMessage(entities[k], role, resolver(entities[k].typ).error)))
    decreases |entities|
  {
    if entities == [] then Ok(())
    else
      var res := resolver(entities[0].typ);
      if res.Err? then Err(AirflowError(InvalidTypeMessage(entities[0], role, res.error)))
      else
        var rest := Validation(resolver, entities[1..], role);
        assert forall k :: 1 <= k < |entities| ==> entities[k] == entities[1..][k - 1];
        rest
  }

  /** With the registry resolver every list validates. */
  lemma {:induction false} RegistryValidatesAll(entities: seq<TypedFQN>, role: string)
    ensures Validation(ResolverGetPath, entities, role).Ok?
  {
    var resolver: EntityType -> Result<string> := ResolverGetPath;
    assert forall k :: 0 <= k < |entities| ==> resolver(entities[k].typ).Ok?;
  }

  class EntityValidator {
    const pathResolver: EntityType -> Result<string>

    constructor (pathResolver: EntityType -> Result<string>)
      ensures this.pathResolver == pathResolver
    {
      this.pathResolver := pathResolver;
    }

    /** `validate_entities`: checks the items in order and stops at the first rejected type. */
    method ValidateEntities(entities: seq<TypedFQN>, role: string) returns (r: Result<()>)
      ensures r == Validation(pathResolver, entities, role)
    {
      var i := 0;
      while i < |entities|
        invariant 0 <= i <= |entities|
        invariant Validation(pathResolver, entities, role) == Validation(pathResolver, entities[i..], role)
      {
        assert entities[i..][1..] == entities[i + 1..];
        var res := pathResolver(entities[i].typ);
        if res.Err? {
          return Err(AirflowError(InvalidTypeMessage(entities[i], role, res.error)));
        }
        i := i + 1;
      }
      r := Ok(());
    }
  }

  /** The two catalog reads the fetcher uses: `get_entity(type, fqn)` and
      `get_entity_by_id(type, id)`. */
  datatype Catalog = Catalog(
    getEntity: (EntityType, string) -> Result<OMDEntity>,
    getEntityById: (EntityType, string) -> Result<OMDEntity>)

  /** The reads of a catalog client over HTTP. */
  function ClientCatalog(client: LineageApiClient): (c: Catalog)
    ensures forall t, fqn :: c.getEntity(t, fqn) == GetEntity(client.http, client.urls, t, fqn)
    ensures forall t, id :: c.getEntityById(t, id) == GetEntityById(client.http, client.urls, t, id)
  {
    Catalog((t, fqn) => GetEntity(client.http, client.urls, t, fqn),
            (t, id) => GetEntityById(client.http, client.urls, t, id))
  }

  /** `client.get_entity(entity.type, entity.fqn)`. */
  function FetchOf(catalog: Catalog, e: TypedFQN): Result<OMDEntity>
  {
    catalog.getEntity(e.typ, e.fqn)
  }

  /** The message for an entity fetched by id without an fqn, ending with the entity's
      `model_dump_json()`. */
  function NoFqnMessage(id: string, data: OMDEntity): string
  {
    "Fetched entity by ID " + id + " has no \"fullyQualifiedName\". Data: " + EntityJsonText(data)
  }

  /** What `fetch_entity_by_id` returns: the fetched entity when it has a truthy fqn,
      the fetch error, or an AirflowException for an entity without an fqn. */
  function FetchedById(catalog: Catalog, t: EntityType, id: string): (r: Result<OMDEntity>)
    ensures catalog.getEntityById(t, id).Err? ==> r == catalog.getEntityById(t, id)
    ensures r.Ok? ==> HasFqn(r.value) && r == catalog.getEntityById(t, id)
    ensures catalog.getEntityById(t, id).Ok? && !HasFqn(catalog.getEntityById(t, id).value)
      ==> r == Err(AirflowError(NoFqnMessage(id, catalog.getEntityById(t, id).value)))
  {
    var data :- catalog.getEntityById(t, id);
    if !HasFqn(data) then Err(AirflowError(NoFqnMessage(id, data))) else Ok(data)
  }

  class EntityFetcher {
    const cache: EntityCache

    constructor (cache: EntityCache)
      ensures this.cache == cache
    {
      this.cache := cache;
    }

    /** `fetch_entity`: fetches and caches under the requested key; a failed fetch
        caches nothing. */
    method FetchEntity(catalog: Catalog, e: TypedFQN) returns (r: Result<OMDEntity>)
      modifies cache
      ensures r == FetchOf(catalog, e)
      ensures r.Err? ==> cache.entityCache == old(cache.entityCache) && cache.idToFqnCache == old(cache.idToFqnCache)
      ensures r.Ok? ==> cache.entityCache == StoreEntity(old(cache.entityCache), e.typ, e.fqn, r.value)
      ensures r.Ok? ==> cache.idToFqnCache == StoreId(old(cache.idToFqnCache), r.value)
    {
      r := catalog.getEntity(e.typ, e.fqn);
      if r.Ok? {
        cache.CacheEntity(e.typ, e.fqn, r.value);
      }
    }

    /** `fetch_entity_by_id`: on success maps the id to the fqn and caches the entity
        under that fqn; on any failure caches nothing. */
    method FetchEntityById(catalog: Catalog, t: EntityType, id: string) returns (r: Result<OMDEntity>)
      modifies cache
      ensures r == FetchedById(catalog, t, id)
      ensures r.Err? ==> cache.entityCache == old(cache.entityCache) && cache.idToFqnCache == old(cache.idToFqnCache)
      ensures r.Ok? ==> cache.idToFqnCache == StoreId(old(cache.idToFqnCache)[id := r.value.fullyQualifiedName.value], r.value)
      ensures r.Ok? ==> cache.entityCache == StoreEntity(old(cache.entityCache), t, r.value.fullyQualifiedName.value, r.value)
    {
      var fetched := catalog.getEntityById(t, id);
      if fetched.Err? {
        return Err(fetched.error);
      }
      var data := fetched.value;
      if !HasFqn(data) {
        return Err(AirflowError(NoFqnMessage(id, data)));
      }
      var fqn := data.fullyQualifiedName.value;
      cache.CacheFqnMapping(id, fqn);
      cache.CacheEntity(t, fqn, data);
      r := Ok(data);
    }
  }

  /** Two inputs with the same `(type value, fqn)` key are the same input. */
  lemma CacheKeyOfSame(es: seq<TypedFQN>, e: TypedFQN)
    ensures forall x :: x in es && CacheKeyOf(x) == CacheKeyOf(e) ==> x == e
  {
    forall x | x in es && CacheKeyOf(x) == CacheKeyOf(e)
      ensures x == e
    {
      EntityTypeValueInjective(x.typ, e.typ);
    }
  }

  /** Preload, first loop: the inputs found in the entity map, under `(type value, fqn)`. */
  function Hits(entities: seq<TypedFQN>, ec: map<string, OMDEntity>): (r: UseCases.EntityCache)
    ensures forall e :: e in entities && CacheKeyFqn(e.typ, e.fqn) in ec ==>
      CacheKeyOf(e) in r && r[CacheKeyOf(e)] == ec[CacheKeyFqn(e.typ, e.fqn)]
    ensures forall k :: k in r ==> exists e :: e in entities && CacheKeyOf(e) == k && CacheKeyFqn(e.typ, e.fqn) in ec
    decreases |entities|
  {
    if entities == [] then map[]
    else
      var init := entities[..|entities| - 1];
      var e := entities[|entities| - 1];
      assert forall x :: x in entities <==> x in init || x == e;
      var before := Hits(init, ec);
      if CacheKeyFqn(e.typ, e.fqn) in ec then
        CacheKeyOfSame(init, e);
        before[CacheKeyOf(e) := ec[CacheKeyFqn(e.typ, e.fqn)]]
      else before
  }

  /** Preload, first loop: the inputs missing from the entity map, in input order. */
  function Misses(entities: seq<TypedFQN>, ec: map<string, OMDEntity>): (r: seq<TypedFQN>)
    ensures |r| <= |entities|
    ensures forall e :: e in r <==> e in entities && CacheKeyFqn(e.typ, e.fqn) !in ec
    decreases |entities|
  {
    if entities == [] then []
    else
      var init := entities[..|entities| - 1];
      var e := entities[|entities| - 1];
      assert forall x :: x in entities <==> x in init || x == e;
      Misses(init, ec) + (if CacheKeyFqn(e.typ, e.fqn) !in ec then [e] else [])
  }

  lemma HitsMissesSnoc(es: seq<TypedFQN>, i: nat, ec: map<string, OMDEntity>)
    requires i < |es|
    ensures var key := CacheKeyFqn(es[i].typ, es[i].fqn);
      Hits(es[..i + 1], ec) == if key in ec then Hits(es[..i], ec)[CacheKeyOf(es[i]) := ec[key]] else Hits(es[..i], ec)
    ensures var key := CacheKeyFqn(es[i].typ, es[i].fqn);
      Misses(es[..i + 1], ec) == Misses(es[..i], ec) + (if key !in ec then [es[i]] else [])
  {
    assert es[..i + 1][..i] == es[..i];
  }

  /** Preload, second loop: fetch and cache each miss in order; the first failure stops
      the loop. The result is the output map, then the entity and id maps. */
  function FetchPhase(catalog: Catalog, es: seq<TypedFQN>, acc: UseCases.EntityCache,
                      ec: map<string, OMDEntity>, idc: map<string, string>)
    : (r: (Result<UseCases.EntityCache>, map<string, OMDEntity>, map<string, string>))
    ensures r.0.Ok? <==> forall k :: 0 <= k < |es| ==> FetchOf(catalog, es[k]).Ok?
    ensures ec.Keys <= r.1.Keys
    decreases |es|
  {
    if es == [] then (Ok(acc), ec, idc)
    else
      var e := es[0];
      assert forall k :: 1 <= k < |es| ==> es[k] == es[1..][k - 1];
      var fetched := FetchOf(catalog, e);
      if fetched.Err? then (Err(fetched.error), ec, idc)
      else
        FetchPhase(catalog, es[1..], acc[CacheKeyOf(e) := fetched.value],
                   StoreEntity(ec, e.typ, e.fqn, fetched.value), StoreId(idc, fetched.value))
  }

  /** What the fetch loop leaves: on failure the error of some fetched entity; on
      success every entity under its key with its fetched value, the earlier entries
      under other keys kept, no other key, and every entity in the entity map. */
  lemma {:induction false} FetchPhaseFacts(catalog: Catalog, es: seq<TypedFQN>, acc: UseCases.EntityCache,
                                           ec: map<string, OMDEntity>, idc: map<string, string>)
    ensures var r := FetchPhase(catalog, es, acc, ec, idc);
      && (r.0.Err? ==> exists e :: e in es && FetchOf(catalog, e) == Err(r.0.error))
      && (r.0.Ok? ==> forall e :: e in es ==> CacheKeyOf(e) in r.0.value && r.0.value[CacheKeyOf(e)] == FetchOf(catalog, e).value)
      && (r.0.Ok? ==> forall k :: k in acc && (forall e :: e in es ==> CacheKeyOf(e) != k) ==> k in r.0.value && r.0.value[k] == acc[k])
      && (r.0.Ok? ==> forall k :: k in r.0.value ==> k in acc || exists e :: e in es && CacheKeyOf(e) == k)
      && (r.0.Ok? ==> forall e :: e in es ==> CacheKeyFqn(e.typ, e.fqn) in r.1)
    decreases |es|
  {
    if es != [] {
      var e, rest := es[0], es[1..];
      assert forall x :: x in es <==> x == e || x in rest;
      var fetched := FetchOf(catalog, e);
      if fetched.Ok? {
        var acc2 := acc[CacheKeyOf(e) := fetched.value];
        var ec2 := StoreEntity(ec, e.typ, e.fqn, fetched.value);
        FetchPhaseFacts(catalog, rest, acc2, ec2, StoreId(idc, fetched.value));
        CacheKeyOfSame(rest, e);
      }
    }
  }

  /** One fetch of the phase, at position `j`. */
  lemma FetchPhaseStep(catalog: Catalog, es: seq<TypedFQN>, j: nat, acc: UseCases.EntityCache,
                       ec: map<string, OMDEntity>, idc: map<string, string>)
    requires j < |es|
    ensures var e, fetched := es[j], FetchOf(catalog, es[j]);
      FetchPhase(catalog, es[j..], acc, ec, idc)
        == if fetched.Err? then (Err(fetched.error), ec, idc)
           else FetchPhase(catalog, es[j + 1..], acc[CacheKeyOf(e) := fetched.value],
                           StoreEntity(ec, e.typ, e.fqn, fetched.value), StoreId(idc, fetched.value))
  {
    assert es[j..][0] == es[j] && es[j..][1..] == es[j + 1..];
  }

  /** The entities the second loop asks the catalog for: all of them, or up to and
      including the first that fails. */
  function FetchedPrefix(catalog: Catalog, es: seq<TypedFQN>): seq<TypedFQN>
    decreases |es|
  {
    if es == [] then []
    else if FetchOf(catalog, es[0]).Err? then [es[0]]
    else [es[0]] + FetchedPrefix(catalog, es[1..])
  }

  /** The list asked for is a prefix of the misses: all of them when every fetch
      succeeds, otherwise up to and including the first failure. */
  lemma {:induction false} FetchedPrefixShape(catalog: Catalog, es: seq<TypedFQN>)
    ensures var r := FetchedPrefix(catalog, es);
      && |r| <= |es| && r == es[..|r|]
      && (forall k :: 0 <= k < |r| - 1 ==> FetchOf(catalog, r[k]).Ok?)
      && ((r == es && forall k :: 0 <= k < |es| ==> FetchOf(catalog, es[k]).Ok?)
          || (r != [] && FetchOf(catalog, r[|r| - 1]).Err?))
    decreases |es|
  {
    if es != [] && FetchOf(catalog, es[0]).Ok? {
      var rest := FetchedPrefix(catalog, es[1..]);
      FetchedPrefixShape(catalog, es[1..]);
      assert [es[0]] + es[1..] == es;
      assert forall k :: 1 <= k < |rest| + 1 ==> ([es[0]] + rest)[k] == rest[k - 1];
      assert forall k :: 1 <= k < |es| ==> es[k] == es[1..][k - 1];
    }
  }

  /** One step of the fetch loop: a failing first entity ends the list, a good one is
      followed by the rest. */
  lemma FetchedPrefixStep(catalog: Catalog, es: seq<TypedFQN>)
    requires es != []
    ensures FetchOf(catalog, es[0]).Err? ==> FetchedPrefix(catalog, es) == [es[0]]
    ensures FetchOf(catalog, es[0]).Ok? ==> FetchedPrefix(catalog, es) == [es[0]] + FetchedPrefix(catalog, es[1..])
  {
  }

  /** `preload_entities` as a whole, from the entity and id maps it starts with. */
  function Preload(catalog: Catalog, entities: seq<TypedFQN>, ec: map<string, OMDEntity>, idc: map<string, string>)
    : (r: (Result<UseCases.EntityCache>, map<string, OMDEntity>, map<string, string>))
    ensures r.0.Ok? <==> forall e :: e in entities && CacheKeyFqn(e.typ, e.fqn) !in ec ==> FetchOf(catalog, e).Ok?
    ensures r.0.Err? ==> exists e :: e in entities && CacheKeyFqn(e.typ, e.fqn) !in ec && FetchOf(catalog, e) == Err(r.0.error)
    ensures r.0.Ok? ==> forall e :: e in entities ==> CacheKeyOf(e) in r.0.value
    ensures r.0.Ok? ==> forall e :: e in entities ==>
      r.0.value[CacheKeyOf(e)] == if CacheKeyFqn(e.typ, e.fqn) in ec then ec[CacheKeyFqn(e.typ, e.fqn)] else FetchOf(catalog, e).value
    ensures r.0.Ok? ==> forall k :: k in r.0.value ==> exists e :: e in entities && CacheKeyOf(e) == k
    ensures r.0.Ok? ==> forall e :: e in entities ==> CacheKeyFqn(e.typ, e.fqn) in r.1
  {
    var hits, misses := Hits(entities, ec), Misses(entities, ec);
    HitsMissesApart(entities, ec);
    FetchPhaseFacts(catalog, misses, hits, ec, idc);
    FetchPhase(catalog, misses, hits, ec, idc)
  }

  /** A hit and a miss never share a `(type value, fqn)` key. */
  lemma HitsMissesApart(entities: seq<TypedFQN>, ec: map<string, OMDEntity>)
    ensures forall e, x :: e in entities && CacheKeyFqn(e.typ, e.fqn) in ec && x in Misses(entities, ec) ==> CacheKeyOf(x) != CacheKeyOf(e)
  {
    forall e, x | e in entities && CacheKeyFqn(e.typ, e.fqn) in ec && x in Misses(entities, ec)
      ensures CacheKeyOf(x) != CacheKeyOf(e)
    {
      EntityTypeValueInjective(x.typ, e.typ);
    }
  }

  /** A second preload of the same entities, right after a successful one, fetches
      nothing: every input is now a cache hit. */
  lemma PreloadTwice(catalog: Catalog, entities: seq<TypedFQN>, ec: map<string, OMDEntity>, idc: map<string, string>)
    requires Preload(catalog, entities, ec, idc).0.Ok?
    ensures Misses(entities, Preload(catalog, entities, ec, idc).1) == []
  {
    MissesCovered(entities, Preload(catalog, entities, ec, idc).1);
  }

  lemma {:induction false} MissesCovered(entities: seq<TypedFQN>, ec: map<string, OMDEntity>)
    requires forall e :: e in entities ==> CacheKeyFqn(e.typ, e.fqn) in ec
    ensures Misses(entities, ec) == []
    decreases |entities|
  {
    if entities != [] {
      var init := entities[..|entities| - 1];
      assert forall x :: x in init ==> x in entities;
      MissesCovered(init, ec);
    }
  }

  /** What `get_fqn_from_entity_id` returns: a truthy cached fqn, else the fqn of the
      entity fetched by id. */
  function ResolvedFqn(idc: map<string, string>, catalog: Catalog, t: EntityType, id: string): (r: Result<string>)
    ensures r.Ok? ==> |r.value| > 0
    ensures id in idc && |idc[id]| > 0 ==> r == Ok(idc[id])
  {
    if id in idc && |idc[id]| > 0 then Ok(idc[id])
    else
      var data :- FetchedById(catalog, t, id);
      Ok(data.fullyQualifiedName.value)
  }

  /** After a resolution that had to fetch, the same id resolves from the cache alone,
      whatever a later client would answer. */
  lemma ResolvedFqnCached(idc: map<string, string>, catalog: Catalog, later: Catalog, t: EntityType, t2: EntityType, id: string)
    requires FetchedById(catalog, t, id).Ok?
    ensures var data := FetchedById(catalog, t, id).value;
      var idc2 := StoreId(idc[id := data.fullyQualifiedName.value], data);
      ResolvedFqn(idc2, later, t2, id) == Ok(data.fullyQualifiedName.value)
  {
  }

  class LineageMetadataService {
    const cache: EntityCache
    const validator: EntityValidator
    const fetcher: EntityFetcher

    /** The default path resolver is the registry's. */
    constructor (entityPathResolver: Option<EntityType -> Result<string>>)
      ensures fresh(cache) && fresh(validator) && fresh(fetcher)
      ensures cache.entityCache == map[] && cache.idToFqnCache == map[]
      ensures fetcher.cache == cache
      ensures validator.pathResolver == if entityPathResolver.Some? then entityPathResolver.value else ResolverGetPath
    {
      var shared := new EntityCache();
      cache := shared;
      validator := new EntityValidator(if entityPathResolver.Some? then entityPathResolver.value else ResolverGetPath);
      fetcher := new EntityFetcher(shared);
    }

    /** `validate_entities`: delegates to the validator. */
    method ValidateEntities(entities: seq<TypedFQN>, role: string) returns (r: Result<()>)
      ensures r == Validation(validator.pathResolver, entities, role)
    {
      r := validator.ValidateEntities(entities, role);
    }

    /** `preload_entities`: cache hits are copied, misses are fetched in input order
        through the shared cache, and the first fetch error propagates. `fetched` lists
        the entities asked of the catalog. */
    method PreloadEntities(catalog: Catalog, entities: seq<TypedFQN>)
      returns (r: Result<UseCases.EntityCache>, fetched: seq<TypedFQN>)
      requires fetcher.cache == cache
      modifies cache
      ensures (r, cache.entityCache, cache.idToFqnCache) == Preload(catalog, entities, old(cache.entityCache), old(cache.idToFqnCache))
      ensures fetched == FetchedPrefix(catalog, Misses(entities, old(cache.entityCache)))
    {
      var hits, toFetch := SplitHits(entities);
      r, fetched := FetchAll(catalog, toFetch, hits);
    }

    /** The first loop of `preload_entities`: cache hits into the output, misses in order
        into the list to fetch. */
    method SplitHits(entities: seq<TypedFQN>) returns (result: UseCases.EntityCache, toFetch: seq<TypedFQN>)
      ensures result == Hits(entities, cache.entityCache)
      ensures toFetch == Misses(entities, cache.entityCache)
    {
      result, toFetch := map[], [];
      ghost var ec := cache.entityCache;
      var i := 0;
      while i < |entities|
        invariant 0 <= i <= |entities|
        invariant result == Hits(entities[..i], ec)
        invariant toFetch == Misses(entities[..i], ec)
      {
        HitsMissesSnoc(entities, i, ec);
        var e := entities[i];
        var cached := cache.GetEntity(e.typ, e.fqn);
        if cached.Some? {
          result := result[CacheKeyOf(e) := cached.value];
        } else {
          toFetch := toFetch + [e];
        }
        i := i + 1;
      }
      assert entities[..i] == entities;
    }

    /** One miss of the fetch loop: the entity is fetched and, on success, recorded in
        the result; the rest of the phase is what remains. */
    method FetchOne(catalog: Catalog, toFetch: seq<TypedFQN>, j: nat, result: UseCases.EntityCache)
      returns (res: Result<OMDEntity>, result': UseCases.EntityCache)
      requires j < |toFetch| && fetcher.cache == cache
      modifies cache
      ensures res == FetchOf(catalog, toFetch[j])
      ensures res.Err? ==>
        && FetchPhase(catalog, toFetch[j..], result, old(cache.entityCache), old(cache.idToFqnCache))
             == (Err(res.error), cache.entityCache, cache.idToFqnCache)
      ensures res.Ok? ==>
        FetchPhase(catalog, toFetch[j..], result, old(cache.entityCache), old(cache.idToFqnCache))
          == FetchPhase(catalog, toFetch[j + 1..], result', cache.entityCache, cache.idToFqnCache)
    {
      var e := toFetch[j];
      FetchPhaseStep(catalog, toFetch, j, result, cache.entityCache, cache.idToFqnCache);
      res := fetcher.FetchEntity(catalog, e);
      result' := result;
      if res.Ok? {
        result' := result[CacheKeyOf(e) := res.value];
      }
    }

    /** The second loop of `preload_entities`: each entity is fetched through the shared
        cache and added to the output; the first error propagates. */
    method FetchAll(catalog: Catalog, toFetch: seq<TypedFQN>, acc: UseCases.EntityCache)
      returns (r: Result<UseCases.EntityCache>, fetched: seq<TypedFQN>)
      requires fetcher.cache == cache
      modifies cache
      ensures (r, cache.entityCache, cache.idToFqnCache) == FetchPhase(catalog, toFetch, acc, old(cache.entityCache), old(cache.idToFqnCache))
      ensures fetched == FetchedPrefix(catalog, toFetch)
    {
      var result := acc;
      ghost var whole := FetchPhase(catalog, toFetch, result, cache.entityCache, cache.idToFqnCache);
      fetched := [];
      var j := 0;
      while j < |toFetch|
        invariant 0 <= j <= |toFetch|
        invariant whole == FetchPhase(catalog, toFetch[j..], result, cache.entityCache, cache.idToFqnCache)
        invariant fetched == toFetch[..j]
        invariant FetchedPrefix(catalog, toFetch) == fetched + FetchedPrefix(catalog, toFetch[j..])
      {
        var e := toFetch[j];
        TakeSnoc(toFetch, j);
        FetchedPrefixStep(catalog, toFetch[j..]);
        assert toFetch[j..][0] == e && toFetch[j..][1..] == toFetch[j + 1..];
        var res;
        res, result := FetchOne(catalog, toFetch, j, result);
        if res.Err? {
          fetched := fetched + [e];
          r := Err(res.error);
          return;
        }
        AppendAssoc(fetched, [e], FetchedPrefix(catalog, toFetch[j + 1..]));
        fetched := fetched + [e];
        j := j + 1;
      }
      assert toFetch[j..] == [];
      r := Ok(result);
    }

    /** `get_fqn_from_entity_id`: a truthy cached fqn is returned without fetching and
        without touching the cache; otherwise the entity is fetched by id, and after a
        success the id maps to the returned fqn, so the next call is a cache hit. */
    method GetFqnFromEntityId(id: string, catalog: Catalog, t: EntityType) returns (r: Result<string>)
      requires fetcher.cache == cache
      modifies cache
      ensures r == ResolvedFqn(old(cache.idToFqnCache), catalog, t, id)
      ensures old(id in cache.idToFqnCache && |cache.idToFqnCache[id]| > 0) ==>
        cache.entityCache == old(cache.entityCache) && cache.idToFqnCache == old(cache.idToFqnCache)
      ensures r.Ok? ==> id in cache.idToFqnCache && cache.idToFqnCache[id] == r.value
    {
      var cachedFqn := cache.GetFqnById(id);
      if cachedFqn.Some? && |cachedFqn.value| > 0 {
        return Ok(cachedFqn.value);
      }
      var data := fetcher.FetchEntityById(catalog, t, id);
      if data.Err? {
        return Err(data.error);
      }
      r := Ok(data.value.fullyQualifiedName.value);
    }
  }
}
