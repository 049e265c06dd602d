/** The lineage use-case facade (lineage_core/services/lineage_service.py): validation,
    pair generation, entity preloading, and delegation to the diff and graph services. */
module LineageServices {
  import opened Outcomes
  import opened Text
  import opened Types
  import opened Models
  import opened ResponseModels
  import opened UseCases
  import opened EntityUtils
  import opened Registry
  import opened SimpleGraph
  import opened GraphBuilder
  import opened PairGenerator
  import opened DiffCalculator
  import opened MetadataCache
  import ApiClient

  /** The endpoints of the pairs in visiting order: source, then target, pair by pair. */
  function Endpoints(pairs: seq<EntityPair>): (r: seq<TypedFQN>)
    ensures |r| == 2 * |pairs|
    decreases |pairs|
  {
    if pairs == [] then [] else [pairs[0].source, pairs[0].target] + Endpoints(pairs[1..])
  }

  /** Pair `k` contributes positions `2k` and `2k + 1`. */
  lemma {:induction false} EndpointsAt(pairs: seq<EntityPair>, k: int)
    requires 0 <= k < |pairs|
    ensures Endpoints(pairs)[2 * k] == pairs[k].source && Endpoints(pairs)[2 * k + 1] == pairs[k].target
    decreases k
  {
    if k > 0 {
      EndpointsAt(pairs[1..], k - 1);
    }
  }

  /** `es[i]` is the first entity with its fqn. */
  predicate IsFirst(es: seq<TypedFQN>, i: int)
    requires 0 <= i < |es|
  {
    forall j :: 0 <= j < i ==> es[j].fqn != es[i].fqn
  }

  /** The first entity of each fqn among `es[..n]`, in order of appearance. */
  function Firsts(es: seq<TypedFQN>, n: nat): (r: seq<TypedFQN>)
    requires n <= |es|
    ensures |r| <= n
    decreases n
  {
    if n == 0 then []
    else if IsFirst(es, n - 1) then Firsts(es, n - 1) + [es[n - 1]]
    else Firsts(es, n - 1)
  }

  /** `x` is the first entity with its fqn among `es[..n]`. */
  predicate FirstAt(es: seq<TypedFQN>, n: nat, x: TypedFQN)
    requires n <= |es|
  {
    exists k :: 0 <= k < n && IsFirst(es, k) && x == es[k]
  }

  /** Some entity of `r` has fqn `f`. */
  predicate HasFqnIn(r: seq<TypedFQN>, f: string)
  {
    exists m :: 0 <= m < |r| && r[m].fqn == f
  }

  /** Every kept entity is the first occurrence of its fqn. */
  lemma {:induction false} FirstsAreFirst(es: seq<TypedFQN>, n: nat)
    requires n <= |es|
    ensures forall m :: 0 <= m < |Firsts(es, n)| ==> FirstAt(es, n, Firsts(es, n)[m])
    decreases n
  {
    if n > 0 {
      FirstsAreFirst(es, n - 1);
      var before := Firsts(es, n - 1);
      var r := Firsts(es, n);
      forall m | 0 <= m < |r|
        ensures FirstAt(es, n, r[m])
      {
        if m < |before| {
          assert FirstAt(es, n - 1, before[m]);
          var k :| 0 <= k < n - 1 && IsFirst(es, k) && before[m] == es[k];
          assert r[m] == es[k];
        } else {
          assert r[m] == es[n - 1];
        }
      }
    }
  }

  /** Every fqn among `es[..n]` is kept. */
  lemma {:induction false} FirstsCover(es: seq<TypedFQN>, n: nat)
    requires n <= |es|
    ensures forall k :: 0 <= k < n ==> HasFqnIn(Firsts(es, n), es[k].fqn)
    decreases n
  {
    if n > 0 {
      FirstsCover(es, n - 1);
      var before := Firsts(es, n - 1);
      var r := Firsts(es, n);
      forall k | 0 <= k < n
        ensures HasFqnIn(r, es[k].fqn)
      {
        var j := k;
        if k == n - 1 && !IsFirst(es, n - 1) {
          j :| 0 <= j < n - 1 && es[j].fqn == es[n - 1].fqn;
        }
        if j < n - 1 {
          assert HasFqnIn(before, es[j].fqn);
          var m :| 0 <= m < |before| && before[m].fqn == es[j].fqn;
          assert r[m] == before[m];
        } else {
          assert r[|before|] == es[n - 1];
        }
      }
    }
  }

  /** No fqn is kept twice. */
  lemma {:induction false} FirstsDistinct(es: seq<TypedFQN>, n: nat)
    requires n <= |es|
    ensures forall a, b :: 0 <= a < b < |Firsts(es, n)| ==> Firsts(es, n)[a].fqn != Firsts(es, n)[b].fqn
    decreases n
  {
    if n > 0 {
      FirstsDistinct(es, n - 1);
      var before := Firsts(es, n - 1);
      var r := Firsts(es, n);
      if IsFirst(es, n - 1) {
        FirstsAreFirst(es, n - 1);
        assert forall m :: 0 <= m < |before| ==> r[m] == before[m];
        assert r[|before|] == es[n - 1];
        forall a | 0 <= a < |before|
          ensures before[a].fqn != es[n - 1].fqn
        {
          assert FirstAt(es, n - 1, before[a]);
          var k :| 0 <= k < n - 1 && IsFirst(es, k) && before[a] == es[k];
        }
      }
    }
  }

  /** The fqns among `es`. */
  function FqnsOf(es: seq<TypedFQN>): set<string>
  {
    set k | 0 <= k < |es| :: es[k].fqn
  }

  /** One more entity: its fqn joins the seen set, and it is a first occurrence exactly
      when its fqn was not seen before. */
  lemma {:induction false} FqnsOfStep(es: seq<TypedFQN>, n: nat)
    requires n < |es|
    ensures FqnsOf(es[..n + 1]) == FqnsOf(es[..n]) + {es[n].fqn}
    ensures es[n].fqn !in FqnsOf(es[..n]) <==> IsFirst(es, n)
  {
    var a, b := es[..n + 1], es[..n];
    assert forall k :: 0 <= k < n ==> a[k] == b[k] && b[k] == es[k];
    assert a[n] == es[n];
    if !IsFirst(es, n) {
      var j :| 0 <= j < n && es[j].fqn == es[n].fqn;
      assert b[j].fqn == es[n].fqn;
    }
  }

  /** One entity of the deduplication: kept exactly when its fqn is new. */
  method VisitEntity(ghost es: seq<TypedFQN>, ghost n: nat, entity: TypedFQN, entities: seq<TypedFQN>, seenFqns: set<string>)
    returns (entities': seq<TypedFQN>, seenFqns': set<string>)
    requires n < |es| && entity == es[n]
    requires seenFqns == FqnsOf(es[..n]) && entities == Firsts(es, n)
    ensures seenFqns' == FqnsOf(es[..n + 1]) && entities' == Firsts(es, n + 1)
  {
    FqnsOfStep(es, n);
    entities', seenFqns' := entities, seenFqns;
    if entity.fqn !in seenFqns {
      entities' := entities + [entity];
      seenFqns' := seenFqns + {entity.fqn};
    }
  }

  /** `_extract_unique_entities`: the endpoints deduplicated by fqn alone, each kept at
      its first occurrence with the type it has there, in order. */
  method ExtractUniqueEntities(pairs: seq<EntityPair>) returns (entities: seq<TypedFQN>)
    ensures entities == Firsts(Endpoints(pairs), 2 * |pairs|)
  {
    ghost var es := Endpoints(pairs);
    entities := [];
    var seenFqns: set<string> := {};
    var i := 0;
    while i < |pairs|
      invariant 0 <= i <= |pairs|
      invariant seenFqns == FqnsOf(es[..2 * i])
      invariant entities == Firsts(es, 2 * i)
    {
      var pair := pairs[i];
      var both := [pair.source, pair.target];
      var c := 0;
      while c < 2
        invariant 0 <= c <= 2
        invariant seenFqns == FqnsOf(es[..2 * i + c])
        invariant entities == Firsts(es, 2 * i + c)
      {
        var entity := both[c];
        EndpointsAt(pairs, i);
        assert entity == es[2 * i + c];
        entities, seenFqns := VisitEntity(es, 2 * i + c, entity, entities, seenFqns);
        c := c + 1;
      }
      i := i + 1;
    }
  }

  /** Entities of `es` that share an fqn also share their type. */
  predicate TypesAgree(es: seq<TypedFQN>)
  {
    forall i, j :: 0 <= i < |es| && 0 <= j < |es| && es[i].fqn == es[j].fqn ==> es[i].typ == es[j].typ
  }

  /** When endpoints that share an fqn also share their type, the deduplicated list
      holds every endpoint itself, so preloading it caches both keys of every pair. */
  lemma {:induction false} UniqueEntitiesCoverEndpoints(pairs: seq<EntityPair>)
    requires TypesAgree(Endpoints(pairs))
    ensures forall k :: 0 <= k < |pairs| ==>
      pairs[k].source in Firsts(Endpoints(pairs), 2 * |pairs|) && pairs[k].target in Firsts(Endpoints(pairs), 2 * |pairs|)
  {
    var es := Endpoints(pairs);
    var u := Firsts(es, 2 * |pairs|);
    FirstsCover(es, |es|);
    FirstsAreFirst(es, |es|);
    forall k | 0 <= k < |es|
      ensures es[k] in u
    {
      assert HasFqnIn(u, es[k].fqn);
      var m :| 0 <= m < |u| && u[m].fqn == es[k].fqn;
      assert FirstAt(es, |es|, u[m]);
      var k1 :| 0 <= k1 < |es| && IsFirst(es, k1) && u[m] == es[k1];
      assert es[k1].fqn == es[k].fqn && es[k1].typ == es[k].typ;
      assert u[m] == es[k];
    }
    forall k | 0 <= k < |pairs|
      ensures pairs[k].source in u && pairs[k].target in u
    {
      EndpointsAt(pairs, k);
    }
  }

  /** What graph extraction with existence checking yields: the filter's error, nothing
      when no node exists in the catalog, the wrapped error of an edge id that does not
      parse, or one pair per distinct edge between kept nodes. */
  ghost predicate GraphLineageOf(nodes: seq<Node>, edges: seq<LineageEdge>, ctx: DatabaseContext,
                           client: Option<ApiClient.LineageApiClient>, r: Result<seq<EntityPair>>)
  {
    var input := GraphInput(nodes, edges, ctx, client, true);
    && (input.Err? ==> r == Err(input.error))
    && (input.Ok? && client.Some? && input.value.0 == [] ==> r == Ok([]))
    && (input.Ok? && !(client.Some? && input.value.0 == []) && GraphBuilder.ParseEdges(input.value.1).Err? ==>
          r == Err(AirflowError(BuildFailurePrefix + Message(GraphBuilder.ParseEdges(input.value.1).error))))
    && (input.Ok? && !(client.Some? && input.value.0 == []) && GraphBuilder.ParseEdges(input.value.1).Ok? ==>
          && r.Ok? && NoDup(r.value)
          && forall p :: p in r.value <==> p in EdgePairs(GraphBuilder.ParseEdges(input.value.1).value, IdToNode(input.value.0), ctx))
  }

  /** `_validate_entities` as a check: an empty side passes unchecked. */
  function SideCheck(resolver: EntityType -> Result<string>, entities: seq<TypedFQN>, role: string): Result<()>
  {
    if entities == [] then Ok(()) else Validation(resolver, entities, role)
  }

  /** The deduplicated endpoints that `prepare_lineage_processing` preloads. */
  function UniqueEndpoints(pairs: seq<EntityPair>): seq<TypedFQN>
  {
    Firsts(Endpoints(pairs), 2 * |pairs|)
  }

  /** The steps before preloading: the source check, the target check, then pair
      generation on the validated lists (which are the request's own). */
  function PreparedPairs(resolver: EntityType -> Result<string>, request: LineageRequest): Result<seq<EntityPair>>
  {
    var sourcesOk :- SideCheck(resolver, request.sourceEntities, "source");
    var targetsOk :- SideCheck(resolver, request.targetEntities, "target");
    GeneratePairs(request.mapping, request.sourceEntities, request.targetEntities)
  }

  /** What `prepare_lineage_processing` returns when the cache starts as `ec`/`idc`: the
      error of the first failing step (source validation, target validation, pair
      generation, preloading), otherwise the request's lists, the generated pairs and
      (only when there are pairs) the preloaded entities of every unique endpoint. */
  function Prepare(resolver: EntityType -> Result<string>, request: LineageRequest, catalog: Catalog,
                   ec: map<string, OMDEntity>, idc: map<string, string>): (r: Result<LineageProcessingResult>)
    ensures var src := SideCheck(resolver, request.sourceEntities, "source");
      var tgt := SideCheck(resolver, request.targetEntities, "target");
      var gen := GeneratePairs(request.mapping, request.sourceEntities, request.targetEntities);
      && (src.Err? ==> r == Err(src.error))
      && (src.Ok? && tgt.Err? ==> r == Err(tgt.error))
      && (src.Ok? && tgt.Ok? && gen.Err? ==> r == Err(gen.error))
      && (src.Ok? && tgt.Ok? && gen.Ok? && gen.value != [] && Preload(catalog, UniqueEndpoints(gen.value), ec, idc).0.Err? ==>
            r == Err(Preload(catalog, UniqueEndpoints(gen.value), ec, idc).0.error))
    ensures r.Ok? ==> r.value.validatedSources == request.sourceEntities && r.value.validatedTargets == request.targetEntities
    ensures r.Ok? ==> Ok(r.value.pairs) == GeneratePairs(request.mapping, request.sourceEntities, request.targetEntities)
    ensures r.Ok? && r.value.pairs == [] ==> r.value.entityCache == map[]
    ensures r.Ok? && r.value.pairs != [] ==>
      && Preload(catalog, UniqueEndpoints(r.value.pairs), ec, idc).0 == Ok(r.value.entityCache)
      && forall e :: e in UniqueEndpoints(r.value.pairs) ==> CacheKeyOf(e) in r.value.entityCache
  {
    var pairs :- PreparedPairs(resolver, request);
    if pairs == [] then Ok(LineageProcessingResult([], map[], request.sourceEntities, request.targetEntities))
    else
      var entityCache :- Preload(catalog, UniqueEndpoints(pairs), ec, idc).0;
      Ok(LineageProcessingResult(pairs, entityCache, request.sourceEntities, request.targetEntities))
  }

  /** The shared cache after `prepare_lineage_processing`: what preloading leaves when the
      run gets that far, otherwise the cache it started with. */
  function PreparedCaches(resolver: EntityType -> Result<string>, request: LineageRequest, catalog: Catalog,
                          ec: map<string, OMDEntity>, idc: map<string, string>): (map<string, OMDEntity>, map<string, string>)
  {
    var pairs := PreparedPairs(resolver, request);
    if pairs.Ok? && pairs.value != [] then
      var pre := Preload(catalog, UniqueEndpoints(pairs.value), ec, idc);
      (pre.1, pre.2)
    else (ec, idc)
  }

  /** Preparation succeeds exactly when every type of a non-empty side resolves, a
      one-to-one request with two non-empty sides has them of equal length, and, when
      there are pairs, every unique endpoint the cache lacks is fetched. */
  lemma PrepareOk(resolver: EntityType -> Result<string>, request: LineageRequest, catalog: Catalog,
                  ec: map<string, OMDEntity>, idc: map<string, string>)
    ensures var src, tgt := request.sourceEntities, request.targetEntities;
      Prepare(resolver, request, catalog, ec, idc).Ok? <==>
        && (forall k :: 0 <= k < |src| ==> resolver(src[k].typ).Ok?)
        && (forall k :: 0 <= k < |tgt| ==> resolver(tgt[k].typ).Ok?)
        && (src != [] && tgt != [] && request.mapping == OneToOne ==> |src| == |tgt|)
        && (src != [] && tgt != [] && GeneratePairs(request.mapping, src, tgt).Ok? ==>
              forall e :: e in UniqueEndpoints(GeneratePairs(request.mapping, src, tgt).value) && CacheKeyFqn(e.typ, e.fqn) !in ec ==>
                FetchOf(catalog, e).Ok?)
  {
    var src, tgt := request.sourceEntities, request.targetEntities;
    var gen := GeneratePairs(request.mapping, src, tgt);
    SideCheckOk(resolver, src, "source");
    SideCheckOk(resolver, tgt, "target");
    assert gen.Ok? <==> (src != [] && tgt != [] && request.mapping == OneToOne ==> |src| == |tgt|);
    var pp := PreparedPairs(resolver, request);
    assert pp.Ok? ==> pp == gen;
    if pp.Ok? {
      GeneratedNonEmpty(request.mapping, src, tgt);
      if pp.value != [] {
        var pre := Preload(catalog, UniqueEndpoints(pp.value), ec, idc).0;
        assert Prepare(resolver, request, catalog, ec, idc).Ok? <==> pre.Ok?;
      }
    }
  }

  /** A side passes exactly when every type on it resolves. */
  lemma SideCheckOk(resolver: EntityType -> Result<string>, entities: seq<TypedFQN>, role: string)
    ensures SideCheck(resolver, entities, role).Ok? <==> forall k :: 0 <= k < |entities| ==> resolver(entities[k].typ).Ok?
  {
  }

  /** Generation gives pairs exactly when both sides are non-empty. */
  lemma GeneratedNonEmpty(mapping: MappingType, sources: seq<TypedFQN>, targets: seq<TypedFQN>)
    requires GeneratePairs(mapping, sources, targets).Ok?
    ensures GeneratePairs(mapping, sources, targets).value != [] <==> sources != [] && targets != []
  {
    var gen := GeneratePairs(mapping, sources, targets);
    if sources != [] && targets != [] {
      if mapping == OneToOne {
        assert IsZip(gen.value, sources, targets);
      } else {
        assert PairAt(gen.value, sources, targets, 0, 0);
      }
    }
  }

  class LineageService {
    const metadataService: LineageMetadataService

    constructor (metadataService: LineageMetadataService)
      ensures this.metadataService == metadataService
    {
      this.metadataService := metadataService;
    }

    /** `_validate_entities`: an empty list is returned unchecked; otherwise the list is
        returned once every item validates. */
    method ValidateEntitiesIfAny(entities: seq<TypedFQN>, role: string) returns (r: Result<seq<TypedFQN>>)
      ensures entities == [] ==> r == Ok([])
      ensures entities != [] ==> var v := Validation(metadataService.validator.pathResolver, entities, role);
        (v.Ok? ==> r == Ok(entities)) && (v.Err? ==> r == Err(v.error))
    {
      if entities != [] {
        var v := metadataService.ValidateEntities(entities, role);
        if v.Err? {
          return Err(v.error);
        }
      }
      r := Ok(entities);
    }

    /** `prepare_lineage_processing`: validates both sides, generates the pairs and, only
        when there are some, preloads the deduplicated endpoints through the shared cache. */
    method PrepareLineageProcessing(request: LineageRequest, client: ApiClient.LineageApiClient)
      returns (r: Result<LineageProcessingResult>)
      requires metadataService.fetcher.cache == metadataService.cache
      modifies metadataService.cache
      ensures r == Prepare(metadataService.validator.pathResolver, request, ClientCatalog(client),
                           old(metadataService.cache.entityCache), old(metadataService.cache.idToFqnCache))
      ensures (metadataService.cache.entityCache, metadataService.cache.idToFqnCache)
        == PreparedCaches(metadataService.validator.pathResolver, request, ClientCatalog(client),
                          old(metadataService.cache.entityCache), old(metadataService.cache.idToFqnCache))
    {
      var validatedSources :- ValidateEntitiesIfAny(request.sourceEntities, "source");
      var validatedTargets :- ValidateEntitiesIfAny(request.targetEntities, "target");
      var pairs :- GeneratePairs(request.mapping, validatedSources, validatedTargets);
      if pairs == [] {
        return Ok(LineageProcessingResult([], map[], validatedSources, validatedTargets));
      }
      var uniqueEntities := ExtractUniqueEntities(pairs);
      var entityCache, fetched := metadataService.PreloadEntities(ClientCatalog(client), uniqueEntities);
      if entityCache.Err? {
        return Err(entityCache.error);
      }
      r := Ok(LineageProcessingResult(pairs, entityCache.value, validatedSources, validatedTargets));
    }

    /** `process_lineage_sync`: the diff of the new pairs against the existing edges. The
        adds are the new pairs not yet in the catalog; the deletes are existing edges no
        new pair has. */
    function ProcessLineageSync(newPairs: seq<EntityPair>, existing: set<(string, string)>, updated: Option<set<string>>)
      : (r: (seq<EntityPair>, set<(string, string)>))
      ensures forall p :: p in r.0 <==> p in newPairs && FqnTuple(p) !in existing
      ensures r.1 <= existing && r.1 !! FqnTuples(newPairs)
    {
      DiffLineagePairs(newPairs, existing, updated)
    }

    /** `extract_graph_lineage`: graph extraction with existence checking requested;
        the path cutoff is accepted and not passed on. */
    method ExtractGraphLineage(nodes: seq<Node>, edges: seq<LineageEdge>, ctx: DatabaseContext, pathCutoff: int,
                               collapseTriggers: bool, triggerOperatorId: Option<int>,
                               client: Option<ApiClient.LineageApiClient>)
      returns (r: Result<seq<EntityPair>>)
      ensures GraphLineageOf(nodes, edges, ctx, client, r)
    {
      r := ExtractPairsFromGraphPaths(nodes, edges, ctx, client, true, collapseTriggers, triggerOperatorId);
    }

    /** `resolve_entity_fqn`: delegates to the metadata service. */
    method ResolveEntityFqn(id: string, client: ApiClient.LineageApiClient, t: EntityType) returns (r: Result<string>)
      requires metadataService.fetcher.cache == metadataService.cache
      modifies metadataService.cache
      ensures r == ResolvedFqn(old(metadataService.cache.idToFqnCache), ClientCatalog(client), t, id)
      ensures r.Ok? ==> id in metadataService.cache.idToFqnCache && metadataService.cache.idToFqnCache[id] == r.value
    {
      r := metadataService.GetFqnFromEntityId(id, ClientCatalog(client), t);
    }
  }
}
