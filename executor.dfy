/** Sequential execution of lineage additions and deletions with pauses between calls
    (lineage_core/services/lineage_executor.py). The catalog calls are functions from
    their arguments to an outcome; `time.sleep` is recorded as a pause kind. */
module Executor {
  import opened Outcomes
  import opened Types
  import opened Models
  import opened UseCases
  import opened EntityUtils

  datatype OperationType = Add | Delete

  datatype OperationResult = OperationResult(
    operationType: OperationType,
    pair: EntityPair,
    success: bool,
    error: Option<Error>)

  datatype ExecutionResult = ExecutionResult(
    totalOperations: int,
    successfulOperations: int,
    failedOperations: int,
    results: seq<OperationResult>)

  /** `success_rate`: the percentage of successful operations, 0 for an empty run. */
  function SuccessRate(e: ExecutionResult): (rate: real)
    ensures e.totalOperations == 0 ==> rate == 0.0
    ensures 0 <= e.successfulOperations <= e.totalOperations ==> 0.0 <= rate <= 100.0
    ensures 0 < e.totalOperations ==> (rate == 100.0 <==> e.successfulOperations == e.totalOperations)
    ensures 0 < e.totalOperations ==> (rate == 0.0 <==> e.successfulOperations == 0)
  {
    if e.totalOperations == 0 then 0.0
    else (e.successfulOperations as real / e.totalOperations as real) * 100.0
  }

  /** The number of successful results. */
  function CountSuccess(results: seq<OperationResult>): (n: nat)
    ensures n <= |results|
    ensures n == |results| <==> forall k :: 0 <= k < |results| ==> results[k].success
    ensures n == 0 <==> forall k :: 0 <= k < |results| ==> !results[k].success
    decreases |results|
  {
    if results == [] then 0
    else
      var init := results[..|results| - 1];
      assert forall k :: 0 <= k < |init| ==> init[k] == results[k];
      CountSuccess(init) + (if results[|results| - 1].success then 1 else 0)
  }

  /** `_create_execution_result`: the totals of a list of results. */
  function CreateExecutionResult(results: seq<OperationResult>): (r: ExecutionResult)
    ensures r.results == results && r.totalOperations == |results|
    ensures 0 <= r.successfulOperations <= r.totalOperations
    ensures r.successfulOperations + r.failedOperations == r.totalOperations
    ensures r.successfulOperations == r.totalOperations <==> forall k :: 0 <= k < |results| ==> results[k].success
    ensures r.successfulOperations == 0 <==> forall k :: 0 <= k < |results| ==> !results[k].success
  {
    var successful := CountSuccess(results);
    ExecutionResult(|results|, successful, |results| - successful, results)
  }

  /** `client.add_lineage(from_ref, to_ref, from_fqn, to_fqn)`. */
  type AddLineage = (EntityRef, EntityRef, string, string) -> Result<()>

  /** `client.delete_lineage_by_fqn(from_fqn, to_fqn)`. */
  type DeleteLineageByFqn = (string, string) -> Result<()>

  /** One recorded `add_lineage` call. */
  datatype AddCall = AddCall(fromRef: EntityRef, toRef: EntityRef, fromFqn: string, toFqn: string)

  /** The default batch sizes of the add and the delete loops. */
  const DefaultAddBatchPauseSize: int := 30
  const DefaultDeleteBatchPauseSize: int := 20

  /** The sleep between two operations: the batch pause or the per-operation delay. */
  datatype Pause = Short | Batch

  /** The record of one operation and its outcome. */
  function ResultOf(op: OperationType, pair: EntityPair, outcome: Result<()>): OperationResult
  {
    if outcome.Ok? then OperationResult(op, pair, true, None)
    else OperationResult(op, pair, false, Some(outcome.error))
  }

  /** `_execute_add_operation`: the source, then the target, is resolved from the cache,
      and only then is the client called. */
  function AddOperation(pair: EntityPair, cache: EntityCache, addLineage: AddLineage): (r: Result<()>)
    ensures CacheKeyOf(pair.source) !in cache ==>
      r == Err(ValueError("Entity with FQN '" + pair.source.fqn + "' not found in cache."))
    ensures CacheKeyOf(pair.source) in cache && CacheKeyOf(pair.target) !in cache ==>
      r == Err(ValueError("Entity with FQN '" + pair.target.fqn + "' not found in cache."))
    ensures CacheKeyOf(pair.source) in cache && CacheKeyOf(pair.target) in cache ==>
      r == addLineage(EntityRef(cache[CacheKeyOf(pair.source)].id, pair.source.typ),
                      EntityRef(cache[CacheKeyOf(pair.target)].id, pair.target.typ),
                      pair.source.fqn, pair.target.fqn)
  {
    var fromRef :- ToEntityRef(pair.source, cache);
    var toRef :- ToEntityRef(pair.target, cache);
    addLineage(fromRef, toRef, pair.source.fqn, pair.target.fqn)
  }

  /** The client call an add makes, if both ends are cached. */
  function CallOf(pair: EntityPair, cache: EntityCache): (c: Option<AddCall>)
    ensures c.Some? <==> CacheKeyOf(pair.source) in cache && CacheKeyOf(pair.target) in cache
  {
    match (ToEntityRef(pair.source, cache), ToEntityRef(pair.target, cache))
    case (Ok(fromRef), Ok(toRef)) => Some(AddCall(fromRef, toRef, pair.source.fqn, pair.target.fqn))
    case _ => None
  }

  /** The client calls made by adding `pairs` in order. */
  function AddCalls(pairs: seq<EntityPair>, cache: EntityCache): (r: seq<AddCall>)
    ensures |r| <= |pairs|
    decreases |pairs|
  {
    if pairs == [] then []
    else
      var c := CallOf(pairs[|pairs| - 1], cache);
      AddCalls(pairs[..|pairs| - 1], cache) + (if c.Some? then [c.value] else [])
  }

  /** `c` is the call some pair of `pairs` makes. */
  predicate CalledFor(pairs: seq<EntityPair>, cache: EntityCache, c: AddCall)
  {
    exists k :: 0 <= k < |pairs| && CallOf(pairs[k], cache) == Some(c)
  }

  /** Every pair reaches the client exactly when both its ends are cached, and every
      call made belongs to one of the pairs. */
  lemma {:induction false} AddCallsFacts(pairs: seq<EntityPair>, cache: EntityCache)
    ensures |AddCalls(pairs, cache)| == |pairs| <==> forall k :: 0 <= k < |pairs| ==> CallOf(pairs[k], cache).Some?
    ensures forall c :: c in AddCalls(pairs, cache) ==> CalledFor(pairs, cache, c)
    decreases |pairs|
  {
    if pairs != [] {
      var init := pairs[..|pairs| - 1];
      var last := pairs[|pairs| - 1];
      AddCallsFacts(init, cache);
      assert forall k :: 0 <= k < |init| ==> init[k] == pairs[k];
      forall c | c in AddCalls(pairs, cache)
        ensures CalledFor(pairs, cache, c)
      {
        if c in AddCalls(init, cache) {
          assert CalledFor(init, cache, c);
          var k :| 0 <= k < |init| && CallOf(init[k], cache) == Some(c);
          assert CallOf(pairs[k], cache) == Some(c);
        } else {
          assert CallOf(pairs[|pairs| - 1], cache) == Some(c);
        }
      }
      if CallOf(last, cache).None? {
        assert |AddCalls(pairs, cache)| < |pairs|;
      }
    }
  }

  /** The results of adding `pairs` one after the other: one per pair, in order. */
  function AddResults(pairs: seq<EntityPair>, cache: EntityCache, addLineage: AddLineage): (r: seq<OperationResult>)
    ensures |r| == |pairs|
    decreases |pairs|
  {
    if pairs == [] then []
    else
      var last := pairs[|pairs| - 1];
      AddResults(pairs[..|pairs| - 1], cache, addLineage) + [ResultOf(Add, last, AddOperation(last, cache, addLineage))]
  }

  /** Result `k` records the add of pair `k`. */
  lemma {:induction false} AddResultsAt(pairs: seq<EntityPair>, cache: EntityCache, addLineage: AddLineage)
    ensures forall k :: 0 <= k < |pairs| ==>
      AddResults(pairs, cache, addLineage)[k] == ResultOf(Add, pairs[k], AddOperation(pairs[k], cache, addLineage))
    decreases |pairs|
  {
    if pairs != [] {
      var init := pairs[..|pairs| - 1];
      AddResultsAt(init, cache, addLineage);
      assert forall k :: 0 <= k < |init| ==> init[k] == pairs[k];
    }
  }

  /** The results of deleting `pairs` one after the other: one per pair, in order. */
  function DeleteResults(pairs: seq<EntityPair>, deleteByFqn: DeleteLineageByFqn): (r: seq<OperationResult>)
    ensures |r| == |pairs|
    decreases |pairs|
  {
    if pairs == [] then []
    else
      var last := pairs[|pairs| - 1];
      DeleteResults(pairs[..|pairs| - 1], deleteByFqn) + [ResultOf(Delete, last, deleteByFqn(last.source.fqn, last.target.fqn))]
  }

  /** Result `k` records the deletion of pair `k` by its two fqns. */
  lemma {:induction false} DeleteResultsAt(pairs: seq<EntityPair>, deleteByFqn: DeleteLineageByFqn)
    ensures forall k :: 0 <= k < |pairs| ==>
      DeleteResults(pairs, deleteByFqn)[k] == ResultOf(Delete, pairs[k], deleteByFqn(pairs[k].source.fqn, pairs[k].target.fqn))
    decreases |pairs|
  {
    if pairs != [] {
      var init := pairs[..|pairs| - 1];
      DeleteResultsAt(init, deleteByFqn);
      assert forall k :: 0 <= k < |init| ==> init[k] == pairs[k];
    }
  }

  /** The pause after the `i`-th (1-based) operation. Python's and Dafny's `%` agree on
      whether the remainder is zero, for either sign of the batch size. */
  function PauseAfter(i: int, batchPauseSize: int): Pause
    requires batchPauseSize != 0
  {
    if i % batchPauseSize == 0 then Batch else Short
  }

  /** The pauses after the first `m` operations. */
  function Pauses(m: int, batchPauseSize: int): (r: seq<Pause>)
    requires m <= 0 || batchPauseSize != 0
    ensures |r| == if m <= 0 then 0 else m
    decreases m
  {
    if m <= 0 then [] else Pauses(m - 1, batchPauseSize) + [PauseAfter(m, batchPauseSize)]
  }

  /** One pause between consecutive operations: pause `k` follows operation `k + 1`, and
      it is a batch pause exactly when `k + 1` is a multiple of the batch size. */
  lemma {:induction false} PausesShape(m: int, batchPauseSize: int)
    requires m <= 0 || batchPauseSize != 0
    ensures var ps := Pauses(m, batchPauseSize);
      forall k :: 0 <= k < |ps| ==> (ps[k] == Batch <==> (k + 1) % batchPauseSize == 0)
    decreases m
  {
    if m > 0 {
      PausesShape(m - 1, batchPauseSize);
      var ps := Pauses(m, batchPauseSize);
      assert ps[..m - 1] == Pauses(m - 1, batchPauseSize);
    }
  }

  function CountBatch(ps: seq<Pause>): nat
    decreases |ps|
  {
    if ps == [] then 0 else CountBatch(ps[..|ps| - 1]) + (if ps[|ps| - 1] == Batch then 1 else 0)
  }

  /** Euclidean division is determined by its quotient-remainder decomposition. */
  lemma DivUnique(m: int, b: int, q: int, s: int)
    requires b > 0 && 0 <= s < b && m == b * q + s
    ensures m / b == q && m % b == s
  {
    var q0, s0 := m / b, m % b;
    assert b * (q - q0) == s0 - s;
    if q > q0 {
      MulAtLeast(b, q - q0);
    } else if q < q0 {
      MulAtLeast(b, q0 - q);
    }
  }

  lemma MulAtLeast(b: int, d: int)
    requires b > 0 && d >= 1
    ensures b * d >= b
  {
    assert b * d == b * (d - 1) + b;
  }

  lemma DivStep(m: nat, b: int)
    requires b > 0 && m > 0
    ensures m / b == (m - 1) / b + (if m % b == 0 then 1 else 0)
  {
    var q, s := (m - 1) / b, (m - 1) % b;
    if s == b - 1 {
      DivUnique(m, b, q + 1, 0);
    } else {
      DivUnique(m, b, q, s + 1);
    }
  }

  /** Over `m` operations with a positive batch size, every `batchPauseSize`-th pause is
      a batch pause: there are exactly `m / batchPauseSize` of them. */
  lemma {:induction false} BatchPauseCount(m: nat, batchPauseSize: int)
    requires batchPauseSize > 0
    ensures CountBatch(Pauses(m, batchPauseSize)) == m / batchPauseSize
    decreases m
  {
    if m > 0 {
      BatchPauseCount(m - 1, batchPauseSize);
      var ps := Pauses(m, batchPauseSize);
      assert ps[..|ps| - 1] == Pauses(m - 1, batchPauseSize);
      DivStep(m, batchPauseSize);
    }
  }

  lemma AddSnoc(pairs: seq<EntityPair>, i: nat, cache: EntityCache, addLineage: AddLineage)
    requires i < |pairs|
    ensures AddResults(pairs[..i + 1], cache, addLineage)
      == AddResults(pairs[..i], cache, addLineage) + [ResultOf(Add, pairs[i], AddOperation(pairs[i], cache, addLineage))]
    ensures var c := CallOf(pairs[i], cache);
      AddCalls(pairs[..i + 1], cache) == AddCalls(pairs[..i], cache) + (if c.Some? then [c.value] else [])
  {
    assert pairs[..i + 1][..i] == pairs[..i];
  }

  /** One step of the add loop: pair `i` is added and its result and call recorded. */
  method AddOne(pairs: seq<EntityPair>, i: nat, cache: EntityCache, addLineage: AddLineage,
                results: seq<OperationResult>, calls: seq<AddCall>)
    returns (results': seq<OperationResult>, calls': seq<AddCall>)
    requires i < |pairs|
    requires results == AddResults(pairs[..i], cache, addLineage) && calls == AddCalls(pairs[..i], cache)
    ensures results' == AddResults(pairs[..i + 1], cache, addLineage) && calls' == AddCalls(pairs[..i + 1], cache)
  {
    AddSnoc(pairs, i, cache, addLineage);
    var pair := pairs[i];
    var outcome := AddOperation(pair, cache, addLineage);
    var call := CallOf(pair, cache);
    calls' := calls;
    if call.Some? {
      calls' := calls + [call.value];
    }
    results' := results + [ResultOf(Add, pair, outcome)];
  }

  /** `execute_add_operations_sequentially`. Each pair is added in turn; a failure is
      recorded and the run goes on; a pause follows every operation but the last. A batch
      size of 0 raises `ZeroDivisionError` at the first pause, after one operation. */
  method ExecuteAddOperationsSequentially(pairs: seq<EntityPair>, cache: EntityCache, addLineage: AddLineage,
                                          batchPauseSize: int)
    returns (r: Result<ExecutionResult>, pauses: seq<Pause>, calls: seq<AddCall>)
    ensures batchPauseSize != 0 || |pairs| <= 1 ==>
      && r == Ok(CreateExecutionResult(AddResults(pairs, cache, addLineage)))
      && pauses == Pauses(|pairs| - 1, batchPauseSize)
      && calls == AddCalls(pairs, cache)
    ensures batchPauseSize == 0 && |pairs| >= 2 ==>
      r == Err(ZeroDivisionError) && pauses == [] && calls == AddCalls(pairs[..1], cache)
  {
    var results: seq<OperationResult> := [];
    pauses, calls := [], [];
    var i := 0;
    while i < |pairs|
      invariant 0 <= i <= |pairs|
      invariant batchPauseSize == 0 && |pairs| >= 2 ==> i == 0
      invariant results == AddResults(pairs[..i], cache, addLineage)
      invariant calls == AddCalls(pairs[..i], cache)
      invariant pauses == Pauses(if i < |pairs| then i else i - 1, batchPauseSize)
    {
      results, calls := AddOne(pairs, i, cache, addLineage, results, calls);
      if i + 1 < |pairs| {
        if batchPauseSize == 0 {
          assert pairs[..1] == pairs[..i + 1];
          r := Err(ZeroDivisionError);
          return;
        }
        pauses := pauses + [PauseAfter(i + 1, batchPauseSize)];
      }
      i := i + 1;
    }
    assert pairs[..i] == pairs;
    r := Ok(CreateExecutionResult(results));
  }

  /** `execute_delete_operations_sequentially`: the same loop over deletions by fqn. */
  method ExecuteDeleteOperationsSequentially(pairs: seq<EntityPair>, deleteByFqn: DeleteLineageByFqn, batchPauseSize: int)
    returns (r: Result<ExecutionResult>, pauses: seq<Pause>, calls: seq<(string, string)>)
    ensures batchPauseSize != 0 || |pairs| <= 1 ==>
      && r == Ok(CreateExecutionResult(DeleteResults(pairs, deleteByFqn)))
      && pauses == Pauses(|pairs| - 1, batchPauseSize)
      && calls == FqnPairs(pairs)
    ensures batchPauseSize == 0 && |pairs| >= 2 ==>
      r == Err(ZeroDivisionError) && pauses == [] && calls == FqnPairs(pairs[..1])
  {
    var results: seq<OperationResult> := [];
    pauses, calls := [], [];
    var i := 0;
    while i < |pairs|
      invariant 0 <= i <= |pairs|
      invariant batchPauseSize == 0 && |pairs| >= 2 ==> i == 0
      invariant results == DeleteResults(pairs[..i], deleteByFqn)
      invariant calls == FqnPairs(pairs[..i])
      invariant pauses == Pauses(if i < |pairs| then i else i - 1, batchPauseSize)
    {
      assert pairs[..i + 1][..i] == pairs[..i];
      var pair := pairs[i];
      calls := calls + [(pair.source.fqn, pair.target.fqn)];
      var outcome := deleteByFqn(pair.source.fqn, pair.target.fqn);
      results := results + [ResultOf(Delete, pair, outcome)];
      if i + 1 < |pairs| {
        if batchPauseSize == 0 {
          assert pairs[..1] == pairs[..i + 1];
          r := Err(ZeroDivisionError);
          return;
        }
        pauses := pauses + [PauseAfter(i + 1, batchPauseSize)];
      }
      i := i + 1;
    }
    assert pairs[..i] == pairs;
    r := Ok(CreateExecutionResult(results));
  }

  /** The `(source fqn, target fqn)` of each pair, in order. */
  function FqnPairs(pairs: seq<EntityPair>): (r: seq<(string, string)>)
    ensures |r| == |pairs| && forall k :: 0 <= k < |pairs| ==> r[k] == FqnTuple(pairs[k])
    decreases |pairs|
  {
    if pairs == [] then [] else FqnPairs(pairs[..|pairs| - 1]) + [FqnTuple(pairs[|pairs| - 1])]
  }

  /** An add whose source or target is not cached fails with the cache's ValueError and
      makes no client call, whatever the client would have answered. */
  lemma CacheMissFails(pair: EntityPair, cache: EntityCache, addLineage: AddLineage)
    requires CacheKeyOf(pair.source) !in cache || CacheKeyOf(pair.target) !in cache
    ensures CallOf(pair, cache).None?
    ensures !ResultOf(Add, pair, AddOperation(pair, cache, addLineage)).success
    ensures AddOperation(pair, cache, addLineage).Err? && AddOperation(pair, cache, addLineage).error.ValueError?
  {
  }

  /** A run reports no success exactly when every operation failed. */
  lemma {:induction false} AllAddsFailed(pairs: seq<EntityPair>, cache: EntityCache, addLineage: AddLineage)
    ensures CreateExecutionResult(AddResults(pairs, cache, addLineage)).successfulOperations == 0 <==>
      forall k :: 0 <= k < |pairs| ==> AddOperation(pairs[k], cache, addLineage).Err?
  {
    var rs := AddResults(pairs, cache, addLineage);
    AddResultsAt(pairs, cache, addLineage);
    assert forall k :: 0 <= k < |pairs| ==> (rs[k].success <==> AddOperation(pairs[k], cache, addLineage).Ok?);
  }
}
