/** The request and result records passed between the lineage use cases
    (lineage_core/domain/use_cases.py). */
module UseCases {
  import opened Types
  import opened ResponseModels

  /** Catalog entities keyed by `(entity type value, fqn)`. */
  type EntityCache = map<(string, string), OMDEntity>

  datatype LineageRequest = LineageRequest(
    sourceEntities: seq<TypedFQN>,
    targetEntities: seq<TypedFQN>,
    mapping: MappingType)

  datatype LineageProcessingResult = LineageProcessingResult(
    pairs: seq<EntityPair>,
    entityCache: EntityCache,
    validatedSources: seq<TypedFQN>,
    validatedTargets: seq<TypedFQN>)

  datatype LineageSyncRequest = LineageSyncRequest(
    newPairs: seq<EntityPair>,
    existingEdges: set<(string, string)>)

  datatype LineageSyncResult = LineageSyncResult(
    pairsToAdd: seq<EntityPair>,
    pairsToDelete: set<(string, string)>)
  {
    /** `total_changes`: additions plus deletions; zero exactly when there is nothing to do. */
    function TotalChanges(): (n: nat)
      ensures n == |pairsToAdd| + |pairsToDelete|
      ensures n == 0 <==> pairsToAdd == [] && pairsToDelete == {}
    {
      |pairsToAdd| + |pairsToDelete|
    }
  }
}
