/** The read side of the catalog client (lineage_core/adapters/omd/omd_api_client.py) and
    the id resolver it uses (lineage_core/adapters/omd/resolvers/entity_resolver.py).
    The HTTP layer, with its retries, is a function from URL to reply. */
module ApiClient {
  import opened Outcomes
  import opened Text
  import opened Types
  import opened Json
  import opened ResponseModels
  import opened ResponseParser
  import opened UrlBuilder

  /** What a GET returns: a status with a body (`None` when the body is not JSON), or a
      transport failure raised by the HTTP library. */
  datatype HttpReply = Response(status: int, body: Option<Json>) | RequestFailed(message: string)

  type HttpGet = string -> HttpReply

  /** A client: the GET function of its HTTP session and its URL builder. */
  datatype LineageApiClient = LineageApiClient(http: HttpGet, urls: LineageUrlBuilder)

  const NotFound: int := 404
  const OkStatus: int := 200

  /** `raise_for_status()` passes only 2xx statuses. */
  predicate IsSuccess(status: int)
  {
    200 <= status < 300
  }

  const UndecodableBody: Error := ValueError("Expecting value")

  function NotFoundByFqnMessage(t: EntityType, fqn: string): string
  {
    Capitalize(EntityTypeValue(t)) + " with FQN " + fqn + " not found"
  }

  /** `get_entity`: the entity with its columns, a not-found `AirflowException` for 404,
      the status error for any other non-2xx reply. */
  function GetEntity(http: HttpGet, b: LineageUrlBuilder, t: EntityType, fqn: string): (r: Result<OMDEntity>)
    ensures var reply := http(ByFqn(b, t, fqn, ["columns"]));
      && (reply.Response? && reply.status == NotFound ==> r == Err(AirflowError(NotFoundByFqnMessage(t, fqn))))
      && (r.Err? && r.error.AirflowError? ==> reply.Response? && reply.status == NotFound)
      && (reply.Response? && reply.status != NotFound && !IsSuccess(reply.status) ==> r == Err(HttpStatusError(reply.status)))
      && (r.Ok? <==> reply.Response? && IsSuccess(reply.status) && reply.body.Some? && EntityFromJson(reply.body.value).Ok?)
      && (r.Ok? ==> r.value == EntityFromJson(reply.body.value).value)
  {
    var reply := http(ByFqn(b, t, fqn, ["columns"]));
    if reply.RequestFailed? then Err(OtherError(reply.message))
    else if reply.status == NotFound then Err(AirflowError(NotFoundByFqnMessage(t, fqn)))
    else if !IsSuccess(reply.status) then Err(HttpStatusError(reply.status))
    else if reply.body.None? then Err(UndecodableBody)
    else EntityFromJson(reply.body.value)
  }

  /** `get_entity_by_id`: the same rules on the by-id URL. */
  function GetEntityById(http: HttpGet, b: LineageUrlBuilder, t: EntityType, id: string): (r: Result<OMDEntity>)
    ensures var reply := http(ById(b, t, id));
      && (reply.Response? && reply.status == NotFound ==> r == Err(AirflowError(Capitalize(EntityTypeValue(t)) + " with ID " + id + " not found")))
      && (reply.Response? && reply.status != NotFound && !IsSuccess(reply.status) ==> r == Err(HttpStatusError(reply.status)))
      && (r.Ok? <==> reply.Response? && IsSuccess(reply.status) && reply.body.Some? && EntityFromJson(reply.body.value).Ok?)
  {
    var reply := http(ById(b, t, id));
    if reply.RequestFailed? then Err(OtherError(reply.message))
    else if reply.status == NotFound then Err(AirflowError(Capitalize(EntityTypeValue(t)) + " with ID " + id + " not found"))
    else if !IsSuccess(reply.status) then Err(HttpStatusError(reply.status))
    else if reply.body.None? then Err(UndecodableBody)
    else EntityFromJson(reply.body.value)
  }

  lemma TypeValueNoDigits(t: EntityType)
    ensures NoDigits(Capitalize(EntityTypeValue(t)))
  {
    var v := EntityTypeValue(t);
    assert NoDigits(v) by {
      match t
      case Table =>
      case Dashboard =>
      case Pipeline =>
      case Topic =>
    }
  }

  /** The not-found text mentions `404` exactly when the fqn itself does: the status code
      is not part of the message. */
  lemma NotFoundMessageMentions404(t: EntityType, fqn: string)
    ensures Contains(NotFoundByFqnMessage(t, fqn), "404") <==> Contains(fqn, "404")
  {
    var a := Capitalize(EntityTypeValue(t)) + " with FQN ";
    TypeValueNoDigits(t);
    assert NoDigits(" with FQN ");
    assert NoDigits(a) by {
      forall i | 0 <= i < |a| ensures !IsDigit(a[i]) {
        if i >= |Capitalize(EntityTypeValue(t))| {
          assert a[i] == " with FQN "[i - |Capitalize(EntityTypeValue(t))|];
        }
      }
    }
    assert NoDigits(" not found");
    assert AllDigits("404");
    ContainsDigitsInside(a, fqn, " not found", "404");
  }

  /** `resolve_fqn_by_id`: the fully qualified name of a table given its id. A 404 is a
      `ValueError`; any other status but 200 is raised as a status error when it is not
      2xx (other 2xx statuses go on to be parsed); an entity without a name is a
      `ValueError`. */
  function ResolveFqnById(http: HttpGet, b: LineageUrlBuilder, id: string): (r: Result<string>)
    ensures var reply := http(ById(b, Table, id));
      && (reply.Response? && reply.status == NotFound ==> r == Err(ValueError("Entity not found: " + id)))
      && (reply.Response? && reply.status != NotFound && !IsSuccess(reply.status) ==> r == Err(HttpStatusError(reply.status)))
      && (r.Ok? <==> reply.Response? && IsSuccess(reply.status) && reply.body.Some?
                     && EntityFromJson(reply.body.value).Ok? && HasFqn(EntityFromJson(reply.body.value).value))
      && (r.Ok? ==> |r.value| > 0 && Some(r.value) == EntityFromJson(reply.body.value).value.fullyQualifiedName)
  {
    var reply := http(ById(b, Table, id));
    if reply.RequestFailed? then Err(OtherError(reply.message))
    else if reply.status == NotFound then Err(ValueError("Entity not found: " + id))
    else if reply.status != OkStatus && !IsSuccess(reply.status) then Err(HttpStatusError(reply.status))
    else if reply.body.None? then Err(UndecodableBody)
    else
      var entity := EntityFromJson(reply.body.value);
      if entity.Err? then Err(entity.error)
      else if !HasFqn(entity.value) then Err(ValueError("Entity " + id + " resolved with missing FQN"))
      else Ok(entity.value.fullyQualifiedName.value)
  }

  /** The response key `_parse_edges` reads for a direction. */
  function EdgeKey(direction: string): string
  {
    if direction == "up" then "upstreamEdges" else "downstreamEdges"
  }

  /** `_parse_edges`: `.get` on a body that is not an object raises (`AttributeError`). */
  method ParseEdges(data: Json, fqn: string, direction: string) returns (r: Result<seq<RawEdge>>)
    ensures data.JObject? ==> r == Ok(BodyEdges(Some(data), EdgeKey(direction), fqn))
    ensures !data.JObject? <==> r.Err?
  {
    if !data.JObject? {
      return Err(OtherError("object has no attribute 'get'"));
    }
    var key := EdgeKey(direction);
    var edgeData := GetOr(data.fields, key, JArray([]));
    if !edgeData.JArray? {
      return Ok([]);
    }
    var edges := CollectRawEdges(edgeData.items, fqn);
    return Ok(edges);
  }

  /** The edges `_fetch_lineage_edges` returns for a reply: a 404, a transport failure, a
      non-2xx status and any parsing failure all give no edges. */
  function FetchedEdges(reply: HttpReply, fqn: string, upstreamDepth: int): (r: seq<RawEdge>)
    ensures reply.RequestFailed? || reply.status == NotFound || !IsSuccess(reply.status) ==> r == []
  {
    if reply.Response? && reply.status != NotFound && IsSuccess(reply.status) then
      BodyEdges(reply.body, EdgeKey(if upstreamDepth != 0 then "up" else "down"), fqn)
    else []
  }

  /** `_fetch_lineage_edges`: the direction is upstream exactly when an upstream depth is
      asked for. */
  method FetchLineageEdges(http: HttpGet, b: LineageUrlBuilder, fqn: string, upstreamDepth: int, downstreamDepth: int)
    returns (edges: seq<RawEdge>)
    ensures edges == FetchedEdges(http(LineageTableByFqn(b, fqn, upstreamDepth, downstreamDepth)), fqn, upstreamDepth)
  {
    var reply := http(LineageTableByFqn(b, fqn, upstreamDepth, downstreamDepth));
    if reply.RequestFailed? || reply.status == NotFound || !IsSuccess(reply.status) || reply.body.None? {
      return [];
    }
    var parsed := ParseEdges(reply.body.value, fqn, if upstreamDepth != 0 then "up" else "down");
    if parsed.Err? {
      return [];
    }
    edges := parsed.value;
  }

  /** `fqn.split('.')[-2]`, `None` where the index raises. */
  function SchemaSegment(fqn: string): (r: Option<string>)
    ensures r.Some? <==> '.' in fqn
  {
    var parts := Split(fqn, '.');
    SplitPieces(fqn, '.');
    if |parts| >= 2 then Some(parts[|parts| - 2]) else None
  }

  /** Python truthiness of the optional filter set. */
  predicate Filtering(schemaFilter: Option<set<string>>)
  {
    schemaFilter.Some? && schemaFilter.value != {}
  }

  /** The catalog edge one raw edge stands for, or `None` when the inner `try` skips it:
      either end fails to resolve, or a filter is given and a schema segment is missing or
      outside it. */
  function ResolvedEdge(http: HttpGet, b: LineageUrlBuilder, schemaFilter: Option<set<string>>, raw: RawEdge): Option<(string, string)>
  {
    var fromFqn := ResolveFqnById(http, b, raw.1);
    var toFqn := ResolveFqnById(http, b, raw.2);
    if fromFqn.Err? || toFqn.Err? then None
    else if Filtering(schemaFilter) then
      var fromSchema := SchemaSegment(fromFqn.value);
      var toSchema := SchemaSegment(toFqn.value);
      if fromSchema.None? || toSchema.None? then None
      else if fromSchema.value !in schemaFilter.value || toSchema.value !in schemaFilter.value then None
      else Some((fromFqn.value, toFqn.value))
    else Some((fromFqn.value, toFqn.value))
  }

  /** The raw edges fetched for one fqn: one level downstream, then one level upstream. */
  function ScopeRawEdges(http: HttpGet, b: LineageUrlBuilder, fqn: string): seq<RawEdge>
  {
    FetchedEdges(http(LineageTableByFqn(b, fqn, 0, 1)), fqn, 0)
      + FetchedEdges(http(LineageTableByFqn(b, fqn, 1, 0)), fqn, 1)
  }

  function EdgeSet(http: HttpGet, b: LineageUrlBuilder, schemaFilter: Option<set<string>>, raws: seq<RawEdge>): set<(string, string)>
  {
    set i | 0 <= i < |raws| && ResolvedEdge(http, b, schemaFilter, raws[i]).Some? :: ResolvedEdge(http, b, schemaFilter, raws[i]).value
  }

  /** What `get_edges_for_scope` collects over a set of fqns. */
  function ScopeEdges(http: HttpGet, b: LineageUrlBuilder, fqns: set<string>, schemaFilter: Option<set<string>>): set<(string, string)>
  {
    set f, e | f in fqns && e in EdgeSet(http, b, schemaFilter, ScopeRawEdges(http, b, f)) :: e
  }

  lemma EdgeSetSnoc(http: HttpGet, b: LineageUrlBuilder, schemaFilter: Option<set<string>>, raws: seq<RawEdge>, raw: RawEdge)
    ensures EdgeSet(http, b, schemaFilter, raws + [raw])
      == EdgeSet(http, b, schemaFilter, raws)
         + (if ResolvedEdge(http, b, schemaFilter, raw).Some? then {ResolvedEdge(http, b, schemaFilter, raw).value} else {})
  {
    var s := raws + [raw];
    forall e ensures e in EdgeSet(http, b, schemaFilter, s) <==>
      e in EdgeSet(http, b, schemaFilter, raws)
      || (ResolvedEdge(http, b, schemaFilter, raw).Some? && e == ResolvedEdge(http, b, schemaFilter, raw).value)
    {
      if e in EdgeSet(http, b, schemaFilter, s) {
        var i :| 0 <= i < |s| && ResolvedEdge(http, b, schemaFilter, s[i]).Some? && ResolvedEdge(http, b, schemaFilter, s[i]).value == e;
        if i < |raws| {
          assert s[i] == raws[i];
        }
      }
      if e in EdgeSet(http, b, schemaFilter, raws) {
        var i :| 0 <= i < |raws| && ResolvedEdge(http, b, schemaFilter, raws[i]).Some? && ResolvedEdge(http, b, schemaFilter, raws[i]).value == e;
        assert s[i] == raws[i];
      }
      if ResolvedEdge(http, b, schemaFilter, raw).Some? && e == ResolvedEdge(http, b, schemaFilter, raw).value {
        assert s[|raws|] == raw;
      }
    }
  }

  lemma ScopeEdgesAdd(http: HttpGet, b: LineageUrlBuilder, done: set<string>, f: string, schemaFilter: Option<set<string>>)
    ensures ScopeEdges(http, b, done + {f}, schemaFilter)
      == ScopeEdges(http, b, done, schemaFilter) + EdgeSet(http, b, schemaFilter, ScopeRawEdges(http, b, f))
  {
  }

  /** The inner loop over one fqn's raw edges. */
  method AddResolvedEdges(http: HttpGet, b: LineageUrlBuilder, schemaFilter: Option<set<string>>, raws: seq<RawEdge>, edges0: set<(string, string)>)
    returns (edges: set<(string, string)>)
    ensures edges == edges0 + EdgeSet(http, b, schemaFilter, raws)
  {
    edges := edges0;
    var i := 0;
    while i < |raws|
      invariant 0 <= i <= |raws|
      invariant edges == edges0 + EdgeSet(http, b, schemaFilter, raws[..i])
    {
      assert raws[..i + 1] == raws[..i] + [raws[i]];
      EdgeSetSnoc(http, b, schemaFilter, raws[..i], raws[i]);
      edges := AddResolvedEdge(http, b, schemaFilter, raws[i], edges);
      i := i + 1;
    }
    assert raws[..i] == raws;
  }

  /** One step of the inner loop: both ids are resolved, the schema filter applied, and
      the edge added when it survives. */
  method AddResolvedEdge(http: HttpGet, b: LineageUrlBuilder, schemaFilter: Option<set<string>>, raw: RawEdge, edges0: set<(string, string)>)
    returns (edges: set<(string, string)>)
    ensures var resolved := ResolvedEdge(http, b, schemaFilter, raw);
      edges == edges0 + (if resolved.Some? then {resolved.value} else {})
  {
    edges := edges0;
    var (_, fromId, toId) := raw;
    var fromFqn := ResolveFqnById(http, b, fromId);
    var toFqn := ResolveFqnById(http, b, toId);
    if fromFqn.Ok? && toFqn.Ok? {
      if Filtering(schemaFilter) {
        var fromSchema := SchemaSegment(fromFqn.value);
        var toSchema := SchemaSegment(toFqn.value);
        if fromSchema.Some? && toSchema.Some? && fromSchema.value in schemaFilter.value && toSchema.value in schemaFilter.value {
          edges := edges + {(fromFqn.value, toFqn.value)};
        }
      } else {
        edges := edges + {(fromFqn.value, toFqn.value)};
      }
    }
  }

  /** `get_edges_for_scope`: the fqns are visited in the set's (unspecified) order; the
      result does not depend on it. */
  method GetEdgesForScope(http: HttpGet, b: LineageUrlBuilder, fqns: set<string>, schemaFilter: Option<set<string>>)
    returns (edges: set<(string, string)>)
    ensures edges == ScopeEdges(http, b, fqns, schemaFilter)
  {
    edges := {};
    var remaining := fqns;
    while remaining != {}
      invariant remaining <= fqns
      invariant edges == ScopeEdges(http, b, fqns - remaining, schemaFilter)
      decreases |remaining|
    {
      var fqn :| fqn in remaining;
      ScopeEdgesAdd(http, b, fqns - remaining, fqn, schemaFilter);
      assert fqns - (remaining - {fqn}) == (fqns - remaining) + {fqn};
      var downstream := FetchLineageEdges(http, b, fqn, 0, 1);
      var upstream := FetchLineageEdges(http, b, fqn, 1, 0);
      edges := AddResolvedEdges(http, b, schemaFilter, downstream + upstream, edges);
      remaining := remaining - {fqn};
    }
    assert fqns - remaining == fqns;
  }

  /** With a non-empty filter every collected edge joins two fqns whose schema segment is
      in the filter; without one every edge whose ends resolve is collected. */
  lemma ScopeEdgesFilter(http: HttpGet, b: LineageUrlBuilder, fqns: set<string>, schemaFilter: Option<set<string>>, e: (string, string))
    requires e in ScopeEdges(http, b, fqns, schemaFilter)
    ensures Filtering(schemaFilter) ==>
      SchemaSegment(e.0).Some? && SchemaSegment(e.0).value in schemaFilter.value
      && SchemaSegment(e.1).Some? && SchemaSegment(e.1).value in schemaFilter.value
    ensures |e.0| > 0 && |e.1| > 0
  {
  }

  lemma ResolvedEdgeUnfiltered(http: HttpGet, b: LineageUrlBuilder, schemaFilter: Option<set<string>>, raw: RawEdge)
    requires !Filtering(schemaFilter)
    requires ResolveFqnById(http, b, raw.1).Ok? && ResolveFqnById(http, b, raw.2).Ok?
    ensures ResolvedEdge(http, b, schemaFilter, raw) == Some((ResolveFqnById(http, b, raw.1).value, ResolveFqnById(http, b, raw.2).value))
  {
  }

  /** A fqn without a dot has no schema segment, so under a filter an edge touching it is
      skipped rather than aborting the scan. */
  lemma DotlessSkipped(http: HttpGet, b: LineageUrlBuilder, schemaFilter: Option<set<string>>, raw: RawEdge)
    requires Filtering(schemaFilter)
    requires ResolveFqnById(http, b, raw.1).Ok? && '.' !in ResolveFqnById(http, b, raw.1).value
    ensures ResolvedEdge(http, b, schemaFilter, raw).None?
  {
  }
}
