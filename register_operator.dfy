/** The register operator's own step (operators/omd_lineage_register.py): every prepared
    pair is added through the executor, and a run in which every attempted operation
    failed is escalated. */
module RegisterOperator {
  import opened Outcomes
  import opened Types
  import opened UseCases
  import opened EntityUtils
  import opened Executor

  const AllFailedMessage: string := "All lineage registration operations failed"

  /** The escalation rule: an error exactly when operations were attempted and none
      succeeded. */
  function Escalation(e: ExecutionResult): (r: Result<()>)
    ensures r.Err? <==> e.successfulOperations == 0 && e.totalOperations > 0
    ensures r.Err? ==> r.error == LineageOperationError(AllFailedMessage)
  {
    if e.successfulOperations == 0 && e.totalOperations > 0 then Err(LineageOperationError(AllFailedMessage)) else Ok(())
  }

  class RegisterLineageOperator {
    const addLineage: AddLineage

    constructor (addLineage: AddLineage)
      ensures this.addLineage == addLineage
    {
      this.addLineage := addLineage;
    }

    /** `_execute_sequential_operations`: all pairs, in order, with the prepared cache, at
        the executor's default batch size. The run fails exactly when there was at least
        one pair and every add failed; a run with one success, or with no pair, passes. */
    method ExecuteSequentialOperations(processing: LineageProcessingResult)
      returns (r: Result<()>, calls: seq<AddCall>)
      ensures calls == AddCalls(processing.pairs, processing.entityCache)
      ensures r.Err? <==>
        && |processing.pairs| > 0
        && forall k :: 0 <= k < |processing.pairs| ==> AddOperation(processing.pairs[k], processing.entityCache, addLineage).Err?
      ensures r.Err? ==> r.error == LineageOperationError(AllFailedMessage)
    {
      var result, _, addCalls := ExecuteAddOperationsSequentially(processing.pairs, processing.entityCache, addLineage,
                                                                DefaultAddBatchPauseSize);
      calls := addCalls;
      AllAddsFailed(processing.pairs, processing.entityCache, addLineage);
      r := Escalation(result.value);
    }
  }

  /** A pair whose endpoints are not in the cache never succeeds: a run in which no pair
      is cached fails as a whole. */
  lemma UncachedRunFails(processing: LineageProcessingResult, addLineage: AddLineage)
    requires |processing.pairs| > 0
    requires forall k :: 0 <= k < |processing.pairs| ==>
      CacheKeyOf(processing.pairs[k].source) !in processing.entityCache || CacheKeyOf(processing.pairs[k].target) !in processing.entityCache
    ensures forall k :: 0 <= k < |processing.pairs| ==> AddOperation(processing.pairs[k], processing.entityCache, addLineage).Err?
  {
    forall k | 0 <= k < |processing.pairs|
      ensures AddOperation(processing.pairs[k], processing.entityCache, addLineage).Err?
    {
      CacheMissFails(processing.pairs[k], processing.entityCache, addLineage);
    }
  }
}
