/** The reconciliation of wanted lineage pairs against the edges already in the catalog
    (lineage_core/services/omd_use_cases/lineage_diff_calculator.py). An edge is known by
    its `(source fqn, target fqn)` tuple. */
module DiffCalculator {
  import opened Outcomes
  import opened Types
  import Text

  /** The pairs, in order and with repetitions, whose tuple is not yet in the catalog. */
  function PairsToAdd(newPairs: seq<EntityPair>, existing: set<(string, string)>): (r: seq<EntityPair>)
    ensures |r| <= |newPairs|
    ensures forall p :: p in r <==> p in newPairs && FqnTuple(p) !in existing
    decreases |newPairs|
  {
    if newPairs == [] then []
    else
      var init := newPairs[..|newPairs| - 1];
      var last := newPairs[|newPairs| - 1];
      assert newPairs == init + [last];
      PairsToAdd(init, existing) + (if FqnTuple(last) !in existing then [last] else [])
  }

  /** The selection is a filter that keeps order and repetitions: the pairs selected
      from `a + b` are those selected from `a` followed by those selected from `b`, and
      a single pair is selected exactly when its tuple is not in the catalog. */
  lemma {:induction false} PairsToAddAppend(a: seq<EntityPair>, b: seq<EntityPair>, existing: set<(string, string)>)
    ensures PairsToAdd(a + b, existing) == PairsToAdd(a, existing) + PairsToAdd(b, existing)
    ensures |b| == 1 ==> PairsToAdd(b, existing) == if FqnTuple(b[0]) !in existing then b else []
    decreases |b|
  {
    if b == [] {
      assert a + b == a;
    } else {
      var init, last := b[..|b| - 1], b[|b| - 1];
      var kept := if FqnTuple(last) !in existing then [last] else [];
      assert (a + b)[..|a + b| - 1] == a + init;
      assert (a + b)[|a + b| - 1] == last;
      assert PairsToAdd(a + b, existing) == PairsToAdd(a + init, existing) + kept;
      assert PairsToAdd(b, existing) == PairsToAdd(init, existing) + kept;
      PairsToAddAppend(a, init, existing);
      Text.AppendAssoc(PairsToAdd(a, existing), PairsToAdd(init, existing), kept);
      if |b| == 1 {
        assert init == [];
      }
    }
  }

  /** Python truthiness of the optional scope. */
  predicate Scoped(scope: Option<set<string>>)
  {
    scope.Some? && scope.value != {}
  }

  function EdgesToDelete(newPairs: seq<EntityPair>, existing: set<(string, string)>, scope: Option<set<string>>): set<(string, string)>
  {
    var stale := existing - FqnTuples(newPairs);
    if Scoped(scope) then set e | e in stale && (e.0 in scope.value || e.1 in scope.value)
    else stale
  }

  /** `diff_lineage_pairs`: what to add and which edges to delete. Without a scope every
      stale edge is deleted; with one only stale edges touching the scope are. */
  function DiffLineagePairs(newPairs: seq<EntityPair>, existing: set<(string, string)>, scope: Option<set<string>>)
    : (r: (seq<EntityPair>, set<(string, string)>))
    ensures forall p :: p in r.0 <==> p in newPairs && FqnTuple(p) !in existing
    ensures r.1 <= existing
    ensures r.1 !! FqnTuples(newPairs)
    ensures FqnTuples(r.0) !! existing
    ensures !Scoped(scope) ==> r.1 == existing - FqnTuples(newPairs)
    ensures Scoped(scope) ==> forall e :: e in r.1 <==>
      e in existing && e !in FqnTuples(newPairs) && (e.0 in scope.value || e.1 in scope.value)
  {
    (PairsToAdd(newPairs, existing), EdgesToDelete(newPairs, existing, scope))
  }

  /** Nothing is added when every wanted tuple is already in the catalog. */
  lemma {:induction false} PairsToAddCovered(newPairs: seq<EntityPair>, existing: set<(string, string)>)
    requires forall k :: 0 <= k < |newPairs| ==> FqnTuple(newPairs[k]) in existing
    ensures PairsToAdd(newPairs, existing) == []
    decreases |newPairs|
  {
    if newPairs != [] {
      PairsToAddCovered(newPairs[..|newPairs| - 1], existing);
    }
  }

  /** A scope only ever narrows the deletions. */
  lemma ScopedDeletesFewer(newPairs: seq<EntityPair>, existing: set<(string, string)>, scope: set<string>)
    ensures DiffLineagePairs(newPairs, existing, Some(scope)).1 <= DiffLineagePairs(newPairs, existing, None).1
  {
  }

  /** Applying an unscoped diff, deletions removed and additions written, leaves the
      catalog holding exactly the wanted tuples. */
  lemma ApplyUnscopedDiff(newPairs: seq<EntityPair>, existing: set<(string, string)>)
    ensures var r := DiffLineagePairs(newPairs, existing, None);
      (existing - r.1) + FqnTuples(r.0) == FqnTuples(newPairs)
  {
    var r := DiffLineagePairs(newPairs, existing, None);
    forall e ensures e in (existing - r.1) + FqnTuples(r.0) <==> e in FqnTuples(newPairs) {
      if e in FqnTuples(newPairs) && e !in existing {
        var k :| 0 <= k < |newPairs| && FqnTuple(newPairs[k]) == e;
        assert newPairs[k] in r.0;
        var j :| 0 <= j < |r.0| && r.0[j] == newPairs[k];
        assert FqnTuple(r.0[j]) == e;
      }
      if e in FqnTuples(r.0) {
        var j :| 0 <= j < |r.0| && FqnTuple(r.0[j]) == e;
        assert r.0[j] in newPairs;
        var k :| 0 <= k < |newPairs| && newPairs[k] == r.0[j];
        assert FqnTuple(newPairs[k]) == e;
      }
    }
  }

  /** When the catalog already holds exactly the wanted tuples there is nothing to do. */
  lemma DiffOfSynced(newPairs: seq<EntityPair>, scope: Option<set<string>>)
    ensures DiffLineagePairs(newPairs, FqnTuples(newPairs), scope) == ([], {})
  {
    var r := DiffLineagePairs(newPairs, FqnTuples(newPairs), scope);
    PairsToAddCovered(newPairs, FqnTuples(newPairs));
    assert r.1 == {};
  }

  /** Reconciling is idempotent: diffing again after applying an unscoped diff yields
      nothing. */
  lemma DiffIdempotent(newPairs: seq<EntityPair>, existing: set<(string, string)>, scope: Option<set<string>>)
    ensures var r := DiffLineagePairs(newPairs, existing, None);
      DiffLineagePairs(newPairs, (existing - r.1) + FqnTuples(r.0), scope) == ([], {})
  {
    ApplyUnscopedDiff(newPairs, existing);
    DiffOfSynced(newPairs, scope);
  }

  /** Nothing in the catalog yet: every pair is added, in order, and nothing deleted. */
  lemma {:induction false} DiffFromEmpty(newPairs: seq<EntityPair>, scope: Option<set<string>>)
    ensures DiffLineagePairs(newPairs, {}, scope) == (newPairs, {})
    decreases |newPairs|
  {
    if newPairs != [] {
      var init := newPairs[..|newPairs| - 1];
      DiffFromEmpty(init, scope);
      assert init + [newPairs[|newPairs| - 1]] == newPairs;
      assert PairsToAdd(newPairs, {}) == PairsToAdd(init, {}) + [newPairs[|newPairs| - 1]];
    }
    assert EdgesToDelete(newPairs, {}, scope) == {};
  }
}
