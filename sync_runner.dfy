/** The lineage sync runner (lineage_core/entrypoints/lineage_sync_runner.py): it prepares
    the pairs, picks a full reload or a diff sync, reads the catalog's existing edges and
    hands deletions and additions to the executor. The executor invocations are recorded
    as steps, in the order the runner makes them. */
module SyncRunner {
  import opened Outcomes
  import opened Text
  import opened Types
  import opened UseCases
  import opened PairGenerator
  import opened DiffCalculator
  import opened LineageServices
  import MetadataCache
  import ResponseModels
  import ApiClient

  datatype SyncMode = FullReload | DiffSync

  /** The branch of `run_sync`: a clean run always reloads; otherwise an incremental load
      with affected fqns diffs, and everything else reloads. */
  function ChooseMode(cleanBeforeUpdate: bool, loadType: LineageLoadType, affected: Option<set<string>>): (m: SyncMode)
    ensures cleanBeforeUpdate ==> m == FullReload
    ensures m == DiffSync <==> !cleanBeforeUpdate && loadType == Incremental && affected.Some? && affected.value != {}
  {
    if cleanBeforeUpdate then FullReload
    else if loadType == Incremental && affected.Some? && affected.value != {} then DiffSync
    else FullReload
  }

  /** One executor invocation. */
  datatype SyncStep = DeleteBatch(pairs: seq<EntityPair>) | AddBatch(pairs: seq<EntityPair>, cache: EntityCache)

  /** What a run did: nothing, or the processing result it worked from, the mode, the
      existing edges it read and the executor steps. */
  datatype SyncRun =
    | Skipped
    | Ran(processing: LineageProcessingResult, mode: SyncMode, existing: set<(string, string)>, steps: seq<SyncStep>)

  // ---------------------------------------------------------------- the request

  function Sources(pairs: seq<EntityPair>): (r: seq<TypedFQN>)
    ensures |r| == |pairs| && forall k :: 0 <= k < |pairs| ==> r[k] == pairs[k].source
  {
    seq(|pairs|, k requires 0 <= k < |pairs| => pairs[k].source)
  }

  function Targets(pairs: seq<EntityPair>): (r: seq<TypedFQN>)
    ensures |r| == |pairs| && forall k :: 0 <= k < |pairs| ==> r[k] == pairs[k].target
  {
    seq(|pairs|, k requires 0 <= k < |pairs| => pairs[k].target)
  }

  /** The one-to-one request the runner builds gives back exactly its pairs. */
  lemma RequestRegeneratesPairs(pairs: seq<EntityPair>)
    ensures GeneratePairs(OneToOne, Sources(pairs), Targets(pairs)) == Ok(pairs)
  {
    var r := GeneratePairs(OneToOne, Sources(pairs), Targets(pairs));
    if pairs != [] {
      assert IsZip(r.value, Sources(pairs), Targets(pairs));
      assert r.value == pairs;
    }
  }

  /** The request `run_sync` builds from its pairs. */
  function RunRequest(pairs: seq<EntityPair>): LineageRequest
  {
    LineageRequest(Sources(pairs), Targets(pairs), OneToOne)
  }

  /** The runner's preparation fails exactly when some endpoint's type does not resolve
      or some unique endpoint the cache lacks cannot be fetched; when it succeeds it
      hands back the runner's own pairs. */
  lemma {:induction false} RunPreparation(resolver: EntityType -> Result<string>, pairs: seq<EntityPair>,
                                          catalog: MetadataCache.Catalog, ec: map<string, ResponseModels.OMDEntity>,
                                          idc: map<string, string>)
    ensures var p := Prepare(resolver, RunRequest(pairs), catalog, ec, idc);
      && (p.Ok? <==>
            && (forall k :: 0 <= k < |pairs| ==> resolver(pairs[k].source.typ).Ok? && resolver(pairs[k].target.typ).Ok?)
            && (forall e :: e in UniqueEndpoints(pairs) && MetadataCache.CacheKeyFqn(e.typ, e.fqn) !in ec ==>
                  MetadataCache.FetchOf(catalog, e).Ok?))
      && (p.Ok? ==> p.value.pairs == pairs)
  {
    RequestRegeneratesPairs(pairs);
    PrepareOk(resolver, RunRequest(pairs), catalog, ec, idc);
  }

  // ---------------------------------------------------------------- _convert

  predicate TableTyped(p: EntityPair)
  {
    p.source.typ == Table && p.target.typ == Table
  }

  function TablePair(t: (string, string)): (p: EntityPair)
    ensures TableTyped(p) && FqnTuple(p) == t
  {
    EntityPair(TypedFQN(Table, t.0), TypedFQN(Table, t.1))
  }

  /** `ps` is a conversion of `s`: one TABLE-typed pair per tuple, in some order. */
  predicate ConvertedFrom(ps: seq<EntityPair>, s: set<(string, string)>)
  {
    && NoDup(ps) && |ps| == |s|
    && (forall p :: p in ps ==> TableTyped(p))
    && FqnTuples(ps) == s
  }

  /** `_convert`: the set is iterated in its own, unspecified, order. */
  method Convert(fqnPairs: set<(string, string)>) returns (ps: seq<EntityPair>)
    ensures ConvertedFrom(ps, fqnPairs)
  {
    var ts := ListOfSet(fqnPairs);
    ps := seq(|ts|, k requires 0 <= k < |ts| => TablePair(ts[k]));
    forall i, j | 0 <= i < j < |ps|
      ensures ps[i] != ps[j]
    {
      assert FqnTuple(ps[i]) == ts[i] && FqnTuple(ps[j]) == ts[j];
    }
    forall t | t in FqnTuples(ps)
      ensures t in fqnPairs
    {
      var i :| 0 <= i < |ps| && FqnTuple(ps[i]) == t;
      assert ts[i] == t;
    }
    forall t | t in fqnPairs
      ensures t in FqnTuples(ps)
    {
      var i :| 0 <= i < |ts| && ts[i] == t;
      assert FqnTuple(ps[i]) == t;
    }
  }

  // ---------------------------------------------------------------- _extract_target_schema_fqns

  /** At least three dot-segments, and the second-to-last one is a filtered schema. */
  predicate InTargetSchema(fqn: string, schemaFilter: set<string>)
  {
    var parts := Split(fqn, '.');
    |parts| >= 3 && parts[|parts| - 2] in schemaFilter
  }

  /** The fqns among `es` that lie in a filtered schema. */
  function SchemaFqns(es: seq<TypedFQN>, schemaFilter: set<string>): set<string>
  {
    set k | 0 <= k < |es| && InTargetSchema(es[k].fqn, schemaFilter) :: es[k].fqn
  }

  lemma {:induction false} SchemaFqnsStep(es: seq<TypedFQN>, n: nat, schemaFilter: set<string>)
    requires n < |es|
    ensures SchemaFqns(es[..n + 1], schemaFilter) ==
      SchemaFqns(es[..n], schemaFilter) + (if InTargetSchema(es[n].fqn, schemaFilter) then {es[n].fqn} else {})
  {
    var a, b := es[..n + 1], es[..n];
    assert forall k :: 0 <= k < n ==> a[k] == b[k];
    assert a[n] == es[n];
  }

  lemma {:induction false} EndpointsAppend(a: seq<EntityPair>, b: seq<EntityPair>)
    ensures Endpoints(a + b) == Endpoints(a) + Endpoints(b)
    decreases |a|
  {
    if a != [] {
      assert (a + b)[0] == a[0];
      assert (a + b)[1..] == a[1..] + b;
      EndpointsAppend(a[1..], b);
      var head := [a[0].source, a[0].target];
      assert Endpoints(a + b) == head + (Endpoints(a[1..]) + Endpoints(b));
      assert Endpoints(a) == head + Endpoints(a[1..]);
      assert head + (Endpoints(a[1..]) + Endpoints(b)) == (head + Endpoints(a[1..])) + Endpoints(b);
    } else {
      assert a + b == b;
    }
  }

  /** `_extract_target_schema_fqns`: every endpoint, source before target, then the
      ones whose schema segment is filtered. */
  method ExtractTargetSchemaFqns(pairs: seq<EntityPair>, schemaFilter: set<string>) returns (targetFqns: set<string>)
    ensures targetFqns == SchemaFqns(Endpoints(pairs), schemaFilter)
  {
    var allEntities: seq<TypedFQN> := [];
    var i := 0;
    while i < |pairs|
      invariant 0 <= i <= |pairs|
      invariant allEntities == Endpoints(pairs[..i])
    {
      EndpointsAppend(pairs[..i], [pairs[i]]);
      assert pairs[..i + 1] == pairs[..i] + [pairs[i]];
      allEntities := allEntities + [pairs[i].source];
      allEntities := allEntities + [pairs[i].target];
      i := i + 1;
    }
    assert pairs[..i] == pairs;
    targetFqns := {};
    var j := 0;
    while j < |allEntities|
      invariant 0 <= j <= |allEntities|
      invariant targetFqns == SchemaFqns(allEntities[..j], schemaFilter)
    {
      SchemaFqnsStep(allEntities, j, schemaFilter);
      var entity := allEntities[j];
      var fqnParts := Split(entity.fqn, '.');
      if |fqnParts| >= 3 {
        var schemaName := fqnParts[|fqnParts| - 2];
        if schemaName in schemaFilter {
          targetFqns := targetFqns + {entity.fqn};
        }
      }
      j := j + 1;
    }
    assert allEntities[..j] == allEntities;
  }

  /** A full reload scopes its read to exactly the endpoint fqns in a filtered schema. */
  lemma {:induction false} SchemaFqnsOfPairs(pairs: seq<EntityPair>, schemaFilter: set<string>, f: string)
    ensures f in SchemaFqns(Endpoints(pairs), schemaFilter) <==>
      InTargetSchema(f, schemaFilter) && exists k :: 0 <= k < |pairs| && (pairs[k].source.fqn == f || pairs[k].target.fqn == f)
  {
    var es := Endpoints(pairs);
    if f in SchemaFqns(es, schemaFilter) {
      var i :| 0 <= i < |es| && InTargetSchema(es[i].fqn, schemaFilter) && es[i].fqn == f;
      EndpointsAt(pairs, i / 2);
      assert pairs[i / 2].source.fqn == f || pairs[i / 2].target.fqn == f;
    }
    if InTargetSchema(f, schemaFilter) && exists k :: 0 <= k < |pairs| && (pairs[k].source.fqn == f || pairs[k].target.fqn == f) {
      var k :| 0 <= k < |pairs| && (pairs[k].source.fqn == f || pairs[k].target.fqn == f);
      EndpointsAt(pairs, k);
      if pairs[k].source.fqn == f {
        assert es[2 * k].fqn == f;
      } else {
        assert es[2 * k + 1].fqn == f;
      }
    }
  }

  // ---------------------------------------------------------------- _diff_sync

  /** `[p for p in lineage_pairs if (p.source.fqn, p.target.fqn) in to_add]`. */
  function PairsWithTupleIn(pairs: seq<EntityPair>, toAdd: set<(string, string)>): seq<EntityPair>
    decreases |pairs|
  {
    if pairs == [] then []
    else
      var last := pairs[|pairs| - 1];
      PairsWithTupleIn(pairs[..|pairs| - 1], toAdd) + (if FqnTuple(last) in toAdd then [last] else [])
  }

  /** The runner's own diff adds exactly what the diff calculator adds. */
  lemma {:induction false} DiffSyncAddsAgree(pairs: seq<EntityPair>, existing: set<(string, string)>)
    ensures PairsWithTupleIn(pairs, FqnTuples(pairs) - existing) == PairsToAdd(pairs, existing)
    decreases |pairs|
  {
    if pairs != [] {
      var init := pairs[..|pairs| - 1];
      var last := pairs[|pairs| - 1];
      assert FqnTuples(init) <= FqnTuples(pairs) by {
        forall e | e in FqnTuples(init) ensures e in FqnTuples(pairs) {
          var i :| 0 <= i < |init| && FqnTuple(init[i]) == e;
          assert init[i] == pairs[i];
        }
      }
      assert FqnTuple(last) in FqnTuples(pairs);
      PairsWithTupleInFrame(init, FqnTuples(init) - existing, FqnTuples(pairs) - existing);
      DiffSyncAddsAgree(init, existing);
    }
  }

  /** Only the pairs' own tuples matter to the filter. */
  lemma {:induction false} PairsWithTupleInFrame(pairs: seq<EntityPair>, a: set<(string, string)>, b: set<(string, string)>)
    requires forall i :: 0 <= i < |pairs| ==> (FqnTuple(pairs[i]) in a <==> FqnTuple(pairs[i]) in b)
    ensures PairsWithTupleIn(pairs, a) == PairsWithTupleIn(pairs, b)
    decreases |pairs|
  {
    if pairs != [] {
      var init := pairs[..|pairs| - 1];
      assert forall i :: 0 <= i < |init| ==> init[i] == pairs[i];
      PairsWithTupleInFrame(init, a, b);
    }
  }

  /** After a diff sync's deletions and additions the scoped edges are exactly the
      current pairs' tuples. */
  lemma DiffSyncReachesTarget(pairs: seq<EntityPair>, existing: set<(string, string)>)
    ensures (existing - (existing - FqnTuples(pairs))) + FqnTuples(PairsWithTupleIn(pairs, FqnTuples(pairs) - existing))
      == FqnTuples(pairs)
  {
    DiffSyncAddsAgree(pairs, existing);
    ApplyUnscopedDiff(pairs, existing);
  }

  // ---------------------------------------------------------------- the runner

  /** The steps of a full reload that read `existing`. */
  predicate FullReloadOutcome(lineagePairs: seq<EntityPair>, entityCache: EntityCache,
                              existing: set<(string, string)>, steps: seq<SyncStep>)
  {
    && |steps| == (if existing == {} then 1 else 2)
    && steps[|steps| - 1] == AddBatch(lineagePairs, entityCache)
    && (existing != {} ==> steps[0].DeleteBatch? && ConvertedFrom(steps[0].pairs, existing))
  }

  /** The steps of a diff sync that read `existing`. */
  predicate DiffSyncOutcome(lineagePairs: seq<EntityPair>, entityCache: EntityCache,
                            existing: set<(string, string)>, steps: seq<SyncStep>)
  {
    var toDelete := existing - FqnTuples(lineagePairs);
    var toAdd := PairsToAdd(lineagePairs, existing);
    && |steps| == (if toDelete == {} then 0 else 1) + (if toAdd == [] then 0 else 1)
    && (toDelete != {} ==> steps[0].DeleteBatch? && ConvertedFrom(steps[0].pairs, toDelete))
    && (toAdd != [] ==> steps[|steps| - 1] == AddBatch(toAdd, entityCache))
  }

  /** The steps of `_full_reload` once the existing edges are read. */
  method FullReloadPlan(lineagePairs: seq<EntityPair>, entityCache: EntityCache, existing: set<(string, string)>)
    returns (steps: seq<SyncStep>)
    ensures FullReloadOutcome(lineagePairs, entityCache, existing, steps)
  {
    steps := [];
    if existing != {} {
      var deletePairs := Convert(existing);
      steps := steps + [DeleteBatch(deletePairs)];
    }
    steps := steps + [AddBatch(lineagePairs, entityCache)];
  }

  /** The steps of `_diff_sync` once the existing edges are read. */
  method DiffSteps(lineagePairs: seq<EntityPair>, entityCache: EntityCache, existing: set<(string, string)>)
    returns (steps: seq<SyncStep>)
    ensures DiffSyncOutcome(lineagePairs, entityCache, existing, steps)
  {
    var current := FqnTuples(lineagePairs);
    var toAdd := current - existing;
    var toDelete := existing - current;
    var deletePairs := Convert(toDelete);
    var addPairs := PairsWithTupleIn(lineagePairs, toAdd);
    DiffSyncAddsAgree(lineagePairs, existing);
    steps := [];
    if deletePairs != [] {
      steps := steps + [DeleteBatch(deletePairs)];
    }
    if addPairs != [] {
      steps := steps + [AddBatch(addPairs, entityCache)];
    }
  }

  class LineageSyncRunner {
    const client: ApiClient.LineageApiClient
    const service: LineageService

    constructor (client: ApiClient.LineageApiClient, service: LineageService)
      ensures this.client == client && this.service == service
    {
      this.client := client;
      this.service := service;
    }

    /** `_full_reload`: the filtered endpoints' existing edges, when there are any, are
        deleted first; then every pair is added. */
    method FullReloadSteps(lineagePairs: seq<EntityPair>, entityCache: EntityCache, schemaFilter: set<string>)
      returns (existing: set<(string, string)>, steps: seq<SyncStep>)
      ensures existing == ApiClient.ScopeEdges(client.http, client.urls, SchemaFqns(Endpoints(lineagePairs), schemaFilter), Some(schemaFilter))
      ensures FullReloadOutcome(lineagePairs, entityCache, existing, steps)
    {
      var targetFqns := ExtractTargetSchemaFqns(lineagePairs, schemaFilter);
      existing := ApiClient.GetEdgesForScope(client.http, client.urls, targetFqns, Some(schemaFilter));
      steps := FullReloadPlan(lineagePairs, entityCache, existing);
    }

    /** `_diff_sync`: the affected fqns' edges are read unfiltered; edges no pair has are
        deleted, then the pairs the catalog lacks are added, each step only when there is
        something to do. */
    method DiffSyncSteps(lineagePairs: seq<EntityPair>, entityCache: EntityCache, affected: set<string>)
      returns (existing: set<(string, string)>, steps: seq<SyncStep>)
      ensures existing == ApiClient.ScopeEdges(client.http, client.urls, affected, None)
      ensures DiffSyncOutcome(lineagePairs, entityCache, existing, steps)
    {
      existing := ApiClient.GetEdgesForScope(client.http, client.urls, affected, None);
      steps := DiffSteps(lineagePairs, entityCache, existing);
    }

    /** `run_sync`. No pairs on an initial load skip the run altogether; otherwise the
        pairs go through one-to-one preparation, and the mode decides the steps. */
    method RunSync(lineagePairs: seq<EntityPair>, loadType: LineageLoadType, cleanBeforeUpdate: bool,
                   schemaFilter: set<string>, affected: Option<set<string>>)
      returns (r: Result<SyncRun>)
      requires service.metadataService.fetcher.cache == service.metadataService.cache
      modifies service.metadataService.cache
      ensures lineagePairs == [] && loadType == Init ==>
        && r == Ok(Skipped)
        && service.metadataService.cache.entityCache == old(service.metadataService.cache.entityCache)
        && service.metadataService.cache.idToFqnCache == old(service.metadataService.cache.idToFqnCache)
      ensures r.Ok? && !(lineagePairs == [] && loadType == Init) ==>
        var run := r.value;
        && run.Ran?
        && run.processing.pairs == lineagePairs
        && run.mode == ChooseMode(cleanBeforeUpdate, loadType, affected)
        && (run.mode == FullReload ==>
              && run.existing == ApiClient.ScopeEdges(client.http, client.urls, SchemaFqns(Endpoints(lineagePairs), schemaFilter), Some(schemaFilter))
              && FullReloadOutcome(lineagePairs, run.processing.entityCache, run.existing, run.steps))
        && (run.mode == DiffSync ==>
              && run.existing == ApiClient.ScopeEdges(client.http, client.urls, affected.value, None)
              && DiffSyncOutcome(lineagePairs, run.processing.entityCache, run.existing, run.steps))
      ensures !(lineagePairs == [] && loadType == Init) ==>
        var p := Prepare(service.metadataService.validator.pathResolver, RunRequest(lineagePairs), MetadataCache.ClientCatalog(client),
                         old(service.metadataService.cache.entityCache), old(service.metadataService.cache.idToFqnCache));
        && (r.Err? <==> p.Err?)
        && (p.Err? ==> r == Err(p.error))
        && (r.Ok? ==> r.value.Ran? && r.value.processing == p.value)
        && (service.metadataService.cache.entityCache, service.metadataService.cache.idToFqnCache)
             == PreparedCaches(service.metadataService.validator.pathResolver, RunRequest(lineagePairs), MetadataCache.ClientCatalog(client),
                               old(service.metadataService.cache.entityCache), old(service.metadataService.cache.idToFqnCache))
    {
      if lineagePairs == [] && loadType == Init {
        return Ok(Skipped);
      }
      var request := RunRequest(lineagePairs);
      RequestRegeneratesPairs(lineagePairs);
      var result :- service.PrepareLineageProcessing(request, client);
      var mode := ChooseMode(cleanBeforeUpdate, loadType, affected);
      var existing, steps;
      if mode == FullReload {
        existing, steps := FullReloadSteps(lineagePairs, result.entityCache, schemaFilter);
      } else {
        existing, steps := DiffSyncSteps(lineagePairs, result.entityCache, affected.value);
      }
      r := Ok(Ran(result, mode, existing, steps));
    }
  }
}
