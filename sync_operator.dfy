/** The sync operator's own steps (operators/omd_lineage_sync.py): diff the prepared
    pairs against the edges read from the catalog, type the stale edges from the known
    pairs, then delete before adding. As in the runner, the executor invocations are
    recorded as steps. */
module SyncOperator {
  import opened Outcomes
  import opened Text
  import opened Types
  import opened UseCases
  import opened DiffCalculator
  import opened LineageServices
  import opened SyncRunner
  import ApiClient

  // ---------------------------------------------------------------- _resolve_delete_pairs

  /** `fqn_to_type` after the loop over the known pairs: each pair writes its source and
      then its target, so a later write wins. */
  function TypeMap(pairs: seq<EntityPair>): map<string, EntityType>
    decreases |pairs|
  {
    if pairs == [] then map[]
    else
      var last := pairs[|pairs| - 1];
      TypeMap(pairs[..|pairs| - 1])[last.source.fqn := last.source.typ][last.target.fqn := last.target.typ]
  }

  /** Some known pair has `fqn` as its source or its target. */
  predicate Mentions(pairs: seq<EntityPair>, fqn: string)
  {
    exists k :: 0 <= k < |pairs| && (pairs[k].source.fqn == fqn || pairs[k].target.fqn == fqn)
  }

  /** The map knows exactly the fqns of the known pairs. */
  lemma {:induction false} TypeMapKeys(pairs: seq<EntityPair>, fqn: string)
    ensures fqn in TypeMap(pairs) <==> Mentions(pairs, fqn)
    decreases |pairs|
  {
    if pairs != [] {
      var init := pairs[..|pairs| - 1];
      var last := pairs[|pairs| - 1];
      TypeMapKeys(init, fqn);
      if Mentions(init, fqn) {
        var k :| 0 <= k < |init| && (init[k].source.fqn == fqn || init[k].target.fqn == fqn);
        assert pairs[k] == init[k];
      }
      if Mentions(pairs, fqn) && !(last.source.fqn == fqn || last.target.fqn == fqn) {
        var k :| 0 <= k < |pairs| && (pairs[k].source.fqn == fqn || pairs[k].target.fqn == fqn);
        assert k < |init| && init[k] == pairs[k];
      }
    }
  }

  /** When all endpoints that share an fqn share their type, the map gives every
      endpoint its own type. */
  lemma {:induction false} TypeMapAgrees(pairs: seq<EntityPair>)
    requires TypesAgree(Endpoints(pairs))
    ensures forall k :: 0 <= k < |pairs| ==>
      && pairs[k].source.fqn in TypeMap(pairs) && TypeMap(pairs)[pairs[k].source.fqn] == pairs[k].source.typ
      && pairs[k].target.fqn in TypeMap(pairs) && TypeMap(pairs)[pairs[k].target.fqn] == pairs[k].target.typ
  {
    forall k | 0 <= k < |pairs|
      ensures pairs[k].source.fqn in TypeMap(pairs) && TypeMap(pairs)[pairs[k].source.fqn] == pairs[k].source.typ
      ensures pairs[k].target.fqn in TypeMap(pairs) && TypeMap(pairs)[pairs[k].target.fqn] == pairs[k].target.typ
    {
      EndpointsAt(pairs, k);
      TypeOfEndpoint(pairs, pairs[k].source.fqn, 2 * k);
      TypeOfEndpoint(pairs, pairs[k].target.fqn, 2 * k + 1);
    }
  }

  /** The type the map holds for an fqn is that of one of the endpoints carrying it. */
  lemma {:induction false} TypeOfEndpoint(pairs: seq<EntityPair>, fqn: string, i: int)
    requires TypesAgree(Endpoints(pairs))
    requires 0 <= i < |Endpoints(pairs)| && Endpoints(pairs)[i].fqn == fqn
    ensures fqn in TypeMap(pairs) && TypeMap(pairs)[fqn] == Endpoints(pairs)[i].typ
    decreases |pairs|
  {
    var es := Endpoints(pairs);
    var n := |pairs|;
    var init := pairs[..n - 1];
    var last := pairs[n - 1];
    EndpointsAt(pairs, n - 1);
    if last.target.fqn == fqn {
      assert es[2 * (n - 1) + 1] == last.target;
    } else if last.source.fqn == fqn {
      assert es[2 * (n - 1)] == last.source;
    } else {
      var k := i / 2;
      EndpointsAt(pairs, k);
      assert i == 2 * k || i == 2 * k + 1;
      assert k < n - 1;
      assert init[k] == pairs[k];
      EndpointsAt(init, k);
      var j := if i == 2 * k then 2 * k else 2 * k + 1;
      assert Endpoints(init)[j] == es[i];
      assert TypesAgree(Endpoints(init)) by {
        forall a, b | 0 <= a < |Endpoints(init)| && 0 <= b < |Endpoints(init)| && Endpoints(init)[a].fqn == Endpoints(init)[b].fqn
          ensures Endpoints(init)[a].typ == Endpoints(init)[b].typ
        {
          EndpointOfInit(pairs, a);
          EndpointOfInit(pairs, b);
        }
      }
      TypeOfEndpoint(init, fqn, j);
    }
  }

  /** The endpoints of all pairs but the last are a prefix of the endpoints of all pairs. */
  lemma EndpointOfInit(pairs: seq<EntityPair>, a: int)
    requires |pairs| > 0 && 0 <= a < |Endpoints(pairs[..|pairs| - 1])|
    ensures Endpoints(pairs[..|pairs| - 1])[a] == Endpoints(pairs)[a]
  {
    var init := pairs[..|pairs| - 1];
    var k := a / 2;
    EndpointsAt(init, k);
    EndpointsAt(pairs, k);
    assert init[k] == pairs[k];
  }

  function UnknownTypeMessage(t: (string, string)): string
  {
    "Unknown entity type for: " + t.0 + " or " + t.1
  }

  predicate Resolvable(t: (string, string), m: map<string, EntityType>)
  {
    t.0 in m && t.1 in m
  }

  /** The error names one tuple with an fqn the map does not know. */
  predicate UnknownReported(toDelete: set<(string, string)>, m: map<string, EntityType>, e: Error)
  {
    exists t :: t in toDelete && !Resolvable(t, m) && e == ValueError(UnknownTypeMessage(t))
  }

  /** `ps` types each tuple of `toDelete` by the map, one pair per tuple. */
  predicate ResolvedFrom(ps: seq<EntityPair>, toDelete: set<(string, string)>, m: map<string, EntityType>)
  {
    && NoDup(ps) && |ps| == |toDelete| && FqnTuples(ps) == toDelete
    && forall p :: p in ps ==> p.source.fqn in m && p.target.fqn in m && p.source.typ == m[p.source.fqn] && p.target.typ == m[p.target.fqn]
  }

  /** `_resolve_delete_pairs`: the tuples are visited in the set's own order, and the
      first one with an unknown fqn raises. */
  method ResolveDeletePairs(pairsToDelete: set<(string, string)>, knownPairs: seq<EntityPair>)
    returns (r: Result<seq<EntityPair>>)
    ensures r.Ok? <==> forall t :: t in pairsToDelete ==> Resolvable(t, TypeMap(knownPairs))
    ensures r.Err? ==> UnknownReported(pairsToDelete, TypeMap(knownPairs), r.error)
    ensures r.Ok? ==> ResolvedFrom(r.value, pairsToDelete, TypeMap(knownPairs))
  {
    var fqnToType: map<string, EntityType> := map[];
    var i := 0;
    while i < |knownPairs|
      invariant 0 <= i <= |knownPairs|
      invariant fqnToType == TypeMap(knownPairs[..i])
    {
      assert knownPairs[..i + 1][..i] == knownPairs[..i];
      var pair := knownPairs[i];
      fqnToType := fqnToType[pair.source.fqn := pair.source.typ];
      fqnToType := fqnToType[pair.target.fqn := pair.target.typ];
      i := i + 1;
    }
    assert knownPairs[..i] == knownPairs;
    var ts := ListOfSet(pairsToDelete);
    var deletePairs: seq<EntityPair> := [];
    var j := 0;
    while j < |ts|
      invariant 0 <= j <= |ts|
      invariant |deletePairs| == j
      invariant forall k :: 0 <= k < j ==> Resolvable(ts[k], fqnToType)
      invariant forall k :: 0 <= k < j ==> deletePairs[k] == EntityPair(TypedFQN(fqnToType[ts[k].0], ts[k].0), TypedFQN(fqnToType[ts[k].1], ts[k].1))
    {
      var (sourceFqn, targetFqn) := ts[j];
      if !(sourceFqn in fqnToType && targetFqn in fqnToType) {
        assert !Resolvable(ts[j], fqnToType);
        return Err(ValueError(UnknownTypeMessage(ts[j])));
      }
      deletePairs := deletePairs + [EntityPair(TypedFQN(fqnToType[sourceFqn], sourceFqn), TypedFQN(fqnToType[targetFqn], targetFqn))];
      j := j + 1;
    }
    forall t | t in pairsToDelete ensures Resolvable(t, fqnToType) {
      var k :| 0 <= k < |ts| && ts[k] == t;
    }
    forall a, b | 0 <= a < b < |deletePairs| ensures deletePairs[a] != deletePairs[b] {
      assert FqnTuple(deletePairs[a]) == ts[a] && FqnTuple(deletePairs[b]) == ts[b];
    }
    forall t | t in FqnTuples(deletePairs) ensures t in pairsToDelete {
      var k :| 0 <= k < |deletePairs| && FqnTuple(deletePairs[k]) == t;
      assert ts[k] == t;
    }
    forall t | t in pairsToDelete ensures t in FqnTuples(deletePairs) {
      var k :| 0 <= k < |ts| && ts[k] == t;
      assert FqnTuple(deletePairs[k]) == t;
    }
    r := Ok(deletePairs);
  }

  /** A stale edge touching an fqn no known pair mentions makes the resolution raise. */
  lemma UnknownFqnRaises(pairsToDelete: set<(string, string)>, knownPairs: seq<EntityPair>, t: (string, string))
    requires t in pairsToDelete && (!Mentions(knownPairs, t.0) || !Mentions(knownPairs, t.1))
    ensures exists u :: u in pairsToDelete && !Resolvable(u, TypeMap(knownPairs))
  {
    TypeMapKeys(knownPairs, t.0);
    TypeMapKeys(knownPairs, t.1);
  }

  // ---------------------------------------------------------------- _execute_sequential_operations

  type EdgesFetcher = ApiClient.LineageApiClient -> set<(string, string)>

  /** The steps `_execute_sequential_operations` takes after reading `existing`. */
  predicate SyncOutcome(processing: LineageProcessingResult, existing: set<(string, string)>, r: Result<seq<SyncStep>>)
  {
    var toAdd := PairsToAdd(processing.pairs, existing);
    var toDelete := existing - FqnTuples(processing.pairs);
    var m := TypeMap(processing.pairs);
    var addSteps := if toAdd != [] then [AddBatch(toAdd, processing.entityCache)] else [];
    && (toDelete == {} ==> r == Ok(addSteps))
    && (toDelete != {} && !(forall t :: t in toDelete ==> Resolvable(t, m)) ==>
          r.Err? && UnknownReported(toDelete, m, r.error))
    && (toDelete != {} && (forall t :: t in toDelete ==> Resolvable(t, m)) ==>
          r.Ok? && |r.value| == 1 + |addSteps| && r.value[0].DeleteBatch? && r.value[1..] == addSteps
          && ResolvedFrom(r.value[0].pairs, toDelete, m))
  }

  class SyncLineageOperator {
    const existingEdgesFetcher: Option<EdgesFetcher>

    constructor (existingEdgesFetcher: Option<EdgesFetcher>)
      ensures this.existingEdgesFetcher == existingEdgesFetcher
    {
      this.existingEdgesFetcher := existingEdgesFetcher;
    }

    /** The edges the operator starts from: none without a fetcher. */
    function ExistingEdges(client: ApiClient.LineageApiClient): (r: set<(string, string)>)
      ensures existingEdgesFetcher.None? ==> r == {}
      ensures existingEdgesFetcher.Some? ==> r == existingEdgesFetcher.value(client)
    {
      if existingEdgesFetcher.Some? then existingEdgesFetcher.value(client) else {}
    }

    /** `_execute_sequential_operations`: nothing when the diff is empty; otherwise the
        stale edges are deleted first and the missing pairs added after, each step only
        when it has something to do. */
    method ExecuteSequentialOperations(client: ApiClient.LineageApiClient, processing: LineageProcessingResult)
      returns (r: Result<seq<SyncStep>>)
      ensures SyncOutcome(processing, ExistingEdges(client), r)
    {
      var existingEdges := ExistingEdges(client);
      var (pairsToAdd, pairsToDelete) := DiffLineagePairs(processing.pairs, existingEdges, None);
      assert pairsToAdd == PairsToAdd(processing.pairs, existingEdges);
      assert pairsToDelete == existingEdges - FqnTuples(processing.pairs);
      if pairsToAdd == [] && pairsToDelete == {} {
        return Ok([]);
      }
      var addSteps: seq<SyncStep> := [];
      if pairsToAdd != [] {
        addSteps := [AddBatch(pairsToAdd, processing.entityCache)];
      }
      if pairsToDelete == {} {
        return Ok(addSteps);
      }
      var deletePairs := ResolveDeletePairs(pairsToDelete, processing.pairs);
      if deletePairs.Err? {
        return Err(deletePairs.error);
      }
      var steps := [DeleteBatch(deletePairs.value)] + addSteps;
      assert steps[0].pairs == deletePairs.value && steps[1..] == addSteps;
      r := Ok(steps);
    }
  }

  /** With an empty catalog everything is added and nothing deleted. */
  lemma FromEmptyCatalog(processing: LineageProcessingResult, r: Result<seq<SyncStep>>)
    requires processing.pairs != []
    requires SyncOutcome(processing, {}, r)
    ensures r == Ok([AddBatch(processing.pairs, processing.entityCache)])
  {
    DiffFromEmpty(processing.pairs, None);
  }
}
