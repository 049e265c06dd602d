/** Extraction of raw lineage edges from the catalog's lineage responses
    (lineage_core/adapters/omd/omd_response_parser.py). A raw edge is the triple
    `(queried fqn, fromEntity id, toEntity id)`. The response body is `None` when it is
    not valid JSON. */
module ResponseParser {
  import opened Outcomes
  import opened Json

  type RawEdge = (string, string, string)

  /** An entry is used when it is an object whose `fromEntity` and `toEntity` are both
      strings; an absent key reads as `None`, which is not a string. */
  predicate IsEdgeEntry(j: Json)
  {
    j.JObject?
    && "fromEntity" in j.fields && j.fields["fromEntity"].JString?
    && "toEntity" in j.fields && j.fields["toEntity"].JString?
  }

  function EntryEdge(fqn: string, j: Json): RawEdge
    requires IsEdgeEntry(j)
  {
    (fqn, j.fields["fromEntity"].s, j.fields["toEntity"].s)
  }

  /** The raw edges of a list of entries, in order, malformed entries skipped. */
  function EdgeEntries(items: seq<Json>, fqn: string): (r: seq<RawEdge>)
    ensures |r| <= |items|
    ensures forall k :: 0 <= k < |r| ==> r[k].0 == fqn
    decreases |items|
  {
    if items == [] then []
    else
      var init := EdgeEntries(items[..|items| - 1], fqn);
      var last := items[|items| - 1];
      if IsEdgeEntry(last) then init + [EntryEdge(fqn, last)] else init
  }

  /** Entries are handled independently: the edges of a concatenation are the
      concatenation of the edges. */
  lemma {:induction false} EdgeEntriesAppend(a: seq<Json>, b: seq<Json>, fqn: string)
    ensures EdgeEntries(a + b, fqn) == EdgeEntries(a, fqn) + EdgeEntries(b, fqn)
    decreases |b|
  {
    if b != [] {
      assert (a + b)[..|a + b| - 1] == a + b[..|b| - 1];
      EdgeEntriesAppend(a, b[..|b| - 1], fqn);
    } else {
      assert a + b == a;
    }
  }

  /** When every entry is well formed, each yields its edge at the same position. */
  lemma {:induction false} EdgeEntriesAllGood(items: seq<Json>, fqn: string)
    requires forall k :: 0 <= k < |items| ==> IsEdgeEntry(items[k])
    ensures |EdgeEntries(items, fqn)| == |items|
    ensures forall k :: 0 <= k < |items| ==> EdgeEntries(items, fqn)[k] == EntryEdge(fqn, items[k])
    decreases |items|
  {
    if items != [] {
      EdgeEntriesAllGood(items[..|items| - 1], fqn);
    }
  }

  /** An edge is produced exactly when some well-formed entry carries it. */
  lemma {:induction false} EdgeEntriesMember(items: seq<Json>, fqn: string, e: RawEdge)
    ensures e in EdgeEntries(items, fqn) <==>
      exists k :: 0 <= k < |items| && IsEdgeEntry(items[k]) && EntryEdge(fqn, items[k]) == e
    decreases |items|
  {
    if items != [] {
      var init := items[..|items| - 1];
      EdgeEntriesMember(init, fqn, e);
      if e in EdgeEntries(items, fqn) && e !in EdgeEntries(init, fqn) {
        assert EntryEdge(fqn, items[|items| - 1]) == e;
      }
      if exists k :: 0 <= k < |items| && IsEdgeEntry(items[k]) && EntryEdge(fqn, items[k]) == e {
        var k :| 0 <= k < |items| && IsEdgeEntry(items[k]) && EntryEdge(fqn, items[k]) == e;
        if k < |items| - 1 {
          assert init[k] == items[k];
        }
      }
    }
  }

  /** The loop both parsers run over the entries of an edge list. */
  method CollectRawEdges(items: seq<Json>, fqn: string) returns (edges: seq<RawEdge>)
    ensures edges == EdgeEntries(items, fqn)
  {
    edges := [];
    var i := 0;
    while i < |items|
      invariant 0 <= i <= |items|
      invariant edges == EdgeEntries(items[..i], fqn)
    {
      assert items[..i + 1][..i] == items[..i];
      var entry := items[i];
      if entry.JObject? {
        var fromId := Get(entry.fields, "fromEntity");
        var toId := Get(entry.fields, "toEntity");
        if fromId.Some? && fromId.value.JString? && toId.Some? && toId.value.JString? {
          edges := edges + [(fqn, fromId.value.s, toId.value.s)];
        }
      }
      i := i + 1;
    }
    assert items[..i] == items;
  }

  /** What a parser yields for a body: the edges of the list under `key` (absent reads as
      an empty list) when the body is an object and that value is a list, else nothing. */
  function BodyEdges(body: Option<Json>, key: string, fqn: string): (r: seq<RawEdge>)
    ensures body.None? || !body.value.JObject? ==> r == []
    ensures body.Some? && body.value.JObject? && key !in body.value.fields ==> r == []
  {
    if body.Some? && body.value.JObject? then
      var field := GetOr(body.value.fields, key, JArray([]));
      if field.JArray? then EdgeEntries(field.items, fqn) else []
    else []
  }

  /** `parse_lineage_raw_edges_response`: the downstream edges of `srcFqn`. An undecodable
      body, a body that is not an object and a `downstreamEdges` that is not a list all
      give no edges. */
  method ParseLineageRawEdgesResponse(body: Option<Json>, srcFqn: string) returns (edges: seq<RawEdge>)
    ensures edges == BodyEdges(body, "downstreamEdges", srcFqn)
  {
    if body.None? {
      return [];
    }
    var data := body.value;
    if !data.JObject? {
      return [];
    }
    var downstream := GetOr(data.fields, "downstreamEdges", JArray([]));
    if !downstream.JArray? {
      return [];
    }
    edges := CollectRawEdges(downstream.items, srcFqn);
  }

  /** `parse_upstream_edges`: the upstream edges of `targetFqn`. Without the explicit
      checks of the downstream parser the same cases still give nothing: `.get` on a
      non-object raises and is caught, iterating an object or a string yields no objects,
      and iterating any other value raises and is caught. */
  method ParseUpstreamEdges(body: Option<Json>, targetFqn: string) returns (edges: seq<RawEdge>)
    ensures edges == BodyEdges(body, "upstreamEdges", targetFqn)
  {
    if body.None? || !body.value.JObject? {
      return [];
    }
    var upstream := GetOr(body.value.fields, "upstreamEdges", JArray([]));
    match upstream
    case JArray(items) =>
      edges := CollectRawEdges(items, targetFqn);
    case JObject(_) =>
      edges := [];
    case JString(_) =>
      edges := [];
    case _ =>
      edges := [];
  }
}
