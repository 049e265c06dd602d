# omd_utils lineage engine — a Dafny model

This project models the lineage engine of `omd_utils`. The engine reads table nodes and
node-to-node edges from a PostgreSQL metadata store ("MGraph"). It turns them into
source/target table pairs and synchronises those pairs into an OpenMetadata (OMD) server
as lineage edges. It can also push table and column descriptions.

The model follows the engine's layers, one Dafny module per source file:

- **Domain value types** (`Types`, `Models`, `Registry`, `UseCases`):
  - entity, mapping and load types;
  - typed fully-qualified names (fqns) and entity pairs;
  - nodes, the database context and its four-part fqn;
  - the operator settings and their defaults;
  - the entity-type to URL-path registry;
  - the request and result records.
- **Utilities** (`EntityUtils`, `FqnUtils`, `SimpleGraph`):
  - the cache lookup that turns a typed fqn into an entity reference;
  - node to typed fqn;
  - the small directed multigraph the engine uses instead of networkx. It is a class
    that keeps dict insertion order explicitly. It has degree maps, sources and sinks,
    and a depth-first `all_simple_paths`.
- **Services** (`GraphBuilder`, `PairGenerator`, `DiffCalculator`, `Executor`, `MetadataCache`,
  `LineageServices`, `DescriptionSync`):
  - building the graph and collapsing "trigger" nodes;
  - turning the graph, or explicit source/target lists, into pairs;
  - filtering nodes by their existence in OMD;
  - the add/delete diff against existing edges;
  - sequential execution with batch pauses and success statistics;
  - the entity cache, validator and fetcher;
  - the lineage service facade;
  - the description push.
- **Adapters** (`NodeRepository`, `UrlBuilder`, `ResponseModels`, `ResponseParser`, `ApiClient`):
  - the four MGraph queries as calls on an abstract database;
  - row-to-node and row-to-edge conversion;
  - the incremental change window;
  - OMD URL construction with percent-encoding;
  - the pydantic response models over a JSON value type;
  - lineage response parsing;
  - the OMD client's GET side, id-to-fqn resolution and scope edge collection.
- **Entrypoints and operators** (`GraphFetcher`, `SyncRunner`, `SyncOperator`, `RegisterOperator`,
  `MGraphOperator`):
  - the init and incremental graph loads;
  - the full-reload and diff sync modes;
  - the delete-pair resolution of the sync operator;
  - the all-failed escalation of the register operator;
  - the MGraph-to-OMD operator's `execute`, with its early returns, error wrapping and the
    configuration it writes for the next run.

`Outcomes` (Option/Result and an `Error` type whose constructors name the Python
exception raised) and `Text` (split/join, integer formatting and parsing, substring
search) are shared helpers; `Json` is the JSON value type.

Where the source changes objects in place, the model does too:

- `SimpleDiGraph`, `EntityCache`, the fetcher and validator, the services and the operators
  are classes with `modifies` frames.
- Their loops are `while` loops with invariants. Each is proved against a specification
  function of the inputs and the old state.

Collaborators the engine calls but does not define are function-valued parameters:

- the HTTP GET of an OMD URL (`HttpGet`);
- the database (`Database`, a function from a statement and its parameter dict to rows
  or an error);
- `add_lineage`;
- `delete_lineage_by_fqn`;
- the column-description query;
- the existing-edges fetcher.

Writes to OMD and to the stored configuration are returned as traces that the contracts
describe exactly:

- `AddCall`, `(from, to)` delete calls and `SyncStep` batches;
- `PatchCall` description patches;
- `ConfigUpdate` writes;
- `Pause` sleeps, either `Short` or `Batch`.

`ProcessLineageSync` in `LineageServices` is the service's pass-through to the diff
calculator. It is specified by `DiffCalculator.DiffLineagePairs`.

## Model

| member | source | states |
|---|---|---|
| Types.EntityTypeValue | lineage_core/domain/types.py:5-9 | every entity type has a non-empty string value without `:` |
| Types.EntityTypeValueInjective | lineage_core/domain/types.py:5-9 | two entity types have the same string value exactly when they are the same type |
| Types.LoadTypeIsValue | lineage_core/domain/types.py:18-20 | a load type's string value parses back to that load type and to no other |
| Types.FqnTuples | lineage_core/domain/types.py:28-31 | the fqn-tuple set of a pair list holds the (source fqn, target fqn) of every pair, and nothing else |
| Models.NewNode | lineage_core/domain/models.py:34-41 | a node built from the required fields keeps them, has state `accepted` and has no description |
| Models.NodeDump | lineage_core/domain/models.py:34-41 | a node's attribute dump has exactly the seven field names as keys and no `operator_id` |
| Models.NodeFromRow | lineage_core/domain/models.py:34-41 | a row becomes a node only if it has an integer `id` (the node's id) and an `updated` column |
| Models.NodeFromDump | lineage_core/domain/models.py:34-41 | constructing a node from its own dump gives the node back |
| Models.FqnSegments | lineage_core/domain/models.py:48-49 | with dot-free parts, splitting the fqn at `.` gives service, database, schema and name |
| Models.FqnInjective | lineage_core/domain/models.py:48-49 | with dot-free parts, two tables of one context with the same fqn have the same schema and name |
| Models.DefaultContextFqn | lineage_core/domain/models.py:44-49 | under the default context every fqn is `Sacristy.sacristy.<schema>.<name>` |
| Models.DefaultSettings | lineage_core/domain/models.py:52-62 | the default settings are tag 60, operator 14, state `accepted`, no clean-before-update, incremental load, no last-run time, the four `sp_` schemas and the default context |
| Registry.GetPath | lineage_core/domain/registry.py:11-23 | every entity type resolves, to its string value plus `s` |
| Registry.PathsInjective | lineage_core/domain/registry.py:11-16 | distinct entity types map to distinct URL paths |
| Registry.ResolverGetPath | lineage_core/domain/registry.py:26-28 | the module resolver agrees with the registry for every type |
| UseCases.LineageSyncResult.TotalChanges | lineage_core/domain/use_cases.py:39-41 | the change count is the number of adds plus the number of deletes, and is zero exactly when both are empty |
| EntityUtils.ToEntityRef | lineage_core/utils/entity_utils.py:13-21 | a typed fqn resolves exactly when its (type, fqn) key is cached, to the cached id with its own type; otherwise the result is the `ValueError` naming the fqn |
| EntityUtils.CacheKeyInjective | lineage_core/utils/entity_utils.py:17 | two typed fqns share a cache key exactly when they are equal |
| FqnUtils.ToTypedFqn | lineage_core/utils/fqn_utils.py:11-17 | a node becomes a table-typed fqn whose dot-separated parts are the context's service and database, the node's schema and its name |
| FqnUtils.ToTypedFqnInjective | lineage_core/utils/fqn_utils.py:11-17 | with dot-free parts, nodes with the same typed fqn have the same schema and name |
| Json.GetOr | lineage_core/adapters/omd/omd_response_parser.py:23 | `dict.get` with a default returns the stored value when the key is present and the default otherwise |
| Json.Get | lineage_core/adapters/omd/omd_response_parser.py:30-31 | `dict.get` yields a value exactly when the key is present, and then the stored one |
| UrlBuilder.Quote | lineage_core/adapters/omd/http/lineage_url_builder.py:27 | percent-encoding leaves only unreserved characters and `%`, so no `/ ? & = ,` survives |
| UrlBuilder.UnquoteQuote | lineage_core/adapters/omd/http/lineage_url_builder.py:27 | decoding the quoted fqn gives back the UTF-8 bytes of the fqn |
| UrlBuilder.QuoteUnreserved | lineage_core/adapters/omd/http/lineage_url_builder.py:27 | a string of unreserved characters is left unchanged by quoting |
| UrlBuilder.Strip | lineage_core/adapters/omd/http/lineage_url_builder.py:17 | stripping removes exactly a leading and a trailing run of the character, leaving neither end equal to it |
| UrlBuilder.StripIdempotent | lineage_core/adapters/omd/http/lineage_url_builder.py:17 | stripping twice is the same as stripping once |
| UrlBuilder.NewLineageUrlBuilder | lineage_core/adapters/omd/http/lineage_url_builder.py:17 | the builder stores the API version with `/` stripped from both ends |
| UrlBuilder.EntityPath | lineage_core/adapters/omd/http/lineage_url_builder.py:20-36 | the path segment of an entity type is its value plus `s`, and contains no `/` or `?` |
| UrlBuilder.ByFqnSegments | lineage_core/adapters/omd/http/lineage_url_builder.py:20-36 | the by-name URL is `/api/<version>/<types>/name/<quoted fqn>` segment by segment |
| UrlBuilder.ByFqnQuery | lineage_core/adapters/omd/http/lineage_url_builder.py:32-34 | a `?fields=` query is present exactly when fields are requested, and then carries them comma-joined |
| UrlBuilder.ByIdSegments | lineage_core/adapters/omd/http/lineage_url_builder.py:38-41 | the by-id URL ends with the id and is `/api/<version>/<types>/<id>` segment by segment |
| UrlBuilder.LineageTableQuery | lineage_core/adapters/omd/http/lineage_url_builder.py:43-49 | the table-lineage URL has path `/api/<version>/lineage/table/name/<quoted fqn>` and exactly the two depth parameters |
| UrlBuilder.LineageDeleteSegments | lineage_core/adapters/omd/http/lineage_url_builder.py:55-61 | the delete URL names both tables by quoted fqn, and both quotes decode to the original fqns |
| UrlBuilder.LineageAddSegments | lineage_core/adapters/omd/http/lineage_url_builder.py:51-53 | the add URL is `/api/<version>/lineage` |
| ResponseModels.Lookup | lineage_core/adapters/omd/omd_response_models.py:14 | a field is found under its alias first, else under its Python name, and is missing only when neither key is present |
| ResponseModels.RequiredString | lineage_core/adapters/omd/omd_response_models.py:16-18 | a required string field validates exactly when present as a JSON string, whose text it returns |
| ResponseModels.OptionalString | lineage_core/adapters/omd/omd_response_models.py:17 | an optional string field validates when missing, null or a string, and a present value is that string |
| ResponseModels.ColumnFromJson | lineage_core/adapters/omd/omd_response_models.py:12-18 | only a JSON object can become a column, and any failure is a validation error |
| ResponseModels.ColumnsFromJson | lineage_core/adapters/omd/omd_response_models.py:32 | a column list validates exactly when each item does, and then item by item |
| ResponseModels.EntityFromJson | lineage_core/adapters/omd/omd_response_models.py:21-32 | non-objects fail with a `TypeError` and invalid objects with a validation error; a parsed entity has the object's string `id` and its fqn from the aliased field |
| ResponseModels.ColumnRoundTrip | lineage_core/adapters/omd/omd_response_models.py:12-18 | serialising a column and validating it gives the column back |
| ResponseModels.ColumnsRoundTrip | lineage_core/adapters/omd/omd_response_models.py:32 | serialising a column list and validating it gives the list back |
| ResponseModels.EntityRoundTrip | lineage_core/adapters/omd/omd_response_models.py:21-32 | serialising an entity and validating it gives the entity back |
| ResponseModels.OptionRoundTrip | lineage_core/adapters/omd/omd_response_models.py:28-31 | an optional string serialised as string or null validates back to itself |
| ResponseParser.EdgeEntries | lineage_core/adapters/omd/omd_response_parser.py:28-36 | at most one raw edge per list item, each tagged with the queried fqn |
| ResponseParser.EdgeEntriesAllGood | lineage_core/adapters/omd/omd_response_parser.py:28-36 | when every item is a dict with string endpoints, there is one edge per item, in order |
| ResponseParser.EdgeEntriesMember | lineage_core/adapters/omd/omd_response_parser.py:28-36 | a raw edge is produced exactly when some item is a well-formed entry with those endpoints |
| ResponseParser.CollectRawEdges | lineage_core/adapters/omd/omd_response_parser.py:28-36 | the loop collects exactly the well-formed entries, in order |
| ResponseParser.BodyEdges | lineage_core/adapters/omd/omd_response_parser.py:17-26 | a missing or non-object body, or one without the edge key, yields no edges |
| ResponseParser.ParseLineageRawEdgesResponse | lineage_core/adapters/omd/omd_response_parser.py:11-41 | the downstream parser yields the well-formed `downstreamEdges` entries and never raises |
| ResponseParser.ParseUpstreamEdges | lineage_core/adapters/omd/omd_response_parser.py:43-59 | the upstream parser yields the well-formed `upstreamEdges` entries and never raises |
| ApiClient.GetEntity | lineage_core/adapters/omd/omd_api_client.py:73-83 | a 404 is the not-found `AirflowError` (and the only source of one); other failing statuses raise the status error; success is a 2xx reply whose body validates, giving the validated entity |
| ApiClient.GetEntityById | lineage_core/adapters/omd/omd_api_client.py:86-92 | a 404 is the `AirflowError` naming the capitalised type and id; other failing statuses raise; success is a valid 2xx body |
| ApiClient.NotFoundMessageMentions404 | lineage_core/adapters/omd/omd_api_client.py:78-79 | the not-found message contains `404` exactly when the fqn itself does |
| ApiClient.ResolveFqnById | lineage_core/adapters/omd/resolvers/entity_resolver.py:25-43 | a 404 raises `Entity not found: <id>`; success needs a valid 2xx entity with an fqn, and yields that non-empty fqn |
| ApiClient.ParseEdges | lineage_core/adapters/omd/omd_api_client.py:141-159 | an object body gives the well-formed entries under the direction's key; anything else fails |
| ApiClient.FetchedEdges | lineage_core/adapters/omd/omd_api_client.py:124-139 | a failed request, a 404 or any non-success status yields no edges |
| ApiClient.FetchLineageEdges | lineage_core/adapters/omd/omd_api_client.py:124-139 | the fetch is the reply to the table-lineage URL for the fqn and depths, parsed and never raising |
| ApiClient.SchemaSegment | lineage_core/adapters/omd/omd_api_client.py:110-116 | an fqn has a schema segment exactly when it contains a dot |
| ApiClient.AddResolvedEdges | lineage_core/adapters/omd/omd_api_client.py:105-119 | the loop adds to the set exactly the resolved, in-filter edges of the raw edges |
| ApiClient.AddResolvedEdge | lineage_core/adapters/omd/omd_api_client.py:106-119 | one raw edge is added exactly when both ids resolve and, under a non-empty filter, both schema segments are in it |
| ApiClient.GetEdgesForScope | lineage_core/adapters/omd/omd_api_client.py:94-122 | the returned set is the union over the scope's fqns of their resolved, filtered upstream and downstream edges, whatever the set's iteration order |
| ApiClient.ScopeEdgesFilter | lineage_core/adapters/omd/omd_api_client.py:110-116 | every collected edge has non-empty fqns, and under a schema filter both ends have a schema in the filter |
| ApiClient.ResolvedEdgeUnfiltered | lineage_core/adapters/omd/omd_api_client.py:104-120 | without a filter, an edge whose ids both resolve is collected as the pair of resolved fqns |
| ApiClient.DotlessSkipped | lineage_core/adapters/omd/omd_api_client.py:110-116 | under a filter, an edge whose source fqn has no dot is dropped |
| SimpleGraph.EdgeMultiplicity | lineage_core/utils/simple_graph.py:54-55 | in the flattened edge list, an edge occurs as often as its target occurs in its source's adjacency list |
| SimpleGraph.FlattenLength | lineage_core/utils/simple_graph.py:51-55 | the edge list is as long as all adjacency lists together |
| SimpleGraph.DfsShape | lineage_core/utils/simple_graph.py:73-81 | every path the depth-first search reports extends the current path to the end node, along edges, without repeats, within the cutoff |
| SimpleGraph.SimpleDiGraph.constructor | lineage_core/utils/simple_graph.py:14-16 | a new graph has no nodes and no edges |
| SimpleGraph.SimpleDiGraph.AddNode | lineage_core/utils/simple_graph.py:18-19 | adding a node sets its attributes, appends it to the node order only when new, and leaves the edges alone |
| SimpleGraph.SimpleDiGraph.AddEdge | lineage_core/utils/simple_graph.py:21-26 | an edge is appended to the source's list exactly when both ends exist; otherwise the `ValueError` names the missing source, then the missing destination, and nothing changes |
| SimpleGraph.SimpleDiGraph.Nodes | lineage_core/utils/simple_graph.py:28-29 | the node list has no duplicates and holds exactly the graph's nodes |
| SimpleGraph.SimpleDiGraph.GetNode | lineage_core/utils/simple_graph.py:31-34 | a present node gives its attributes; an absent one raises the `KeyError` naming it |
| SimpleGraph.SimpleDiGraph.InDegree | lineage_core/utils/simple_graph.py:36-43 | every node has an in-degree, equal to the number of edges into it |
| SimpleGraph.SimpleDiGraph.OutDegree | lineage_core/utils/simple_graph.py:45-46 | every node has an out-degree, equal to the number of edges out of it |
| SimpleGraph.SimpleDiGraph.NumberOfNodes | lineage_core/utils/simple_graph.py:48-49 | the count is the number of distinct nodes |
| SimpleGraph.SimpleDiGraph.NumberOfEdges | lineage_core/utils/simple_graph.py:51-52 | the count is the length of the edge list, parallel edges included |
| SimpleGraph.SimpleDiGraph.Sources | lineage_core/utils/simple_graph.py:57-61 | the sources are exactly the nodes with outgoing edges and no incoming edge |
| SimpleGraph.CountInto | lineage_core/utils/simple_graph.py:38-42 | counting a destination list adds each destination's occurrences to the running in-degree map |
| SimpleGraph.ZeroFill | lineage_core/utils/simple_graph.py:37 | every node gets a degree entry, zero when nothing points to it |
| SimpleGraph.DegreeSums | lineage_core/utils/simple_graph.py:36-52 | the in-degrees and the out-degrees each sum to the number of edges |
| SimpleGraph.SourcesAndSinksOfValid | lineage_core/utils/simple_graph.py:57-64 | `sinks()` is always empty, because only `add_edge` creates adjacency entries; every source is a node with an outgoing edge |
| SimpleGraph.AllSimplePathsShape | lineage_core/utils/simple_graph.py:66-83 | every reported path starts at start, ends at end and meets it nowhere else, follows edges, repeats no node and has at most cutoff edges |
| SimpleGraph.AllSimplePathsSelf | lineage_core/utils/simple_graph.py:66-72 | from a node to itself the only path is the one-node path |
| SimpleGraph.ParallelEdgesRepeatPaths | lineage_core/utils/simple_graph.py:73-81 | two parallel edges `a→b` make the one-edge path appear twice, since the adjacency list is a multiset |
| GraphBuilder.Kept | lineage_core/services/lineage_graph_builder.py:26-30 | an edge is kept exactly when both its ends are loaded nodes |
| GraphBuilder.AddNodes | lineage_core/services/lineage_graph_builder.py:22-24 | the graph holds each node's dump, with the ids in first-seen order, and no edges |
| GraphBuilder.AddEdges | lineage_core/services/lineage_graph_builder.py:26-30 | an unparsable edge id aborts with its error; otherwise the graph's edges are exactly the kept edges in order |
| GraphBuilder.BuildGraph | lineage_core/services/lineage_graph_builder.py:11-43 | the graph is built exactly when every edge id parses; its nodes are the loaded nodes and its edges the kept edges |
| GraphBuilder.DumpMapNoOperator | lineage_core/services/lineage_graph_builder.py:22-24 | no node attribute map carries `operator_id` |
| GraphBuilder.NoTriggersInDump | lineage_core/services/lineage_graph_builder.py:55-58 | so a graph built from nodes has no trigger nodes to collapse |
| GraphBuilder.BuildGraphEdges | lineage_core/services/lineage_graph_builder.py:26-30 | each edge between loaded nodes occurs in the graph as often as in the input, and every other edge not at all |
| GraphBuilder.KeptCount | lineage_core/services/lineage_graph_builder.py:26-30 | keeping preserves each in-range edge's multiplicity and drops the others |
| GraphBuilder.ZeroDegree | lineage_core/services/lineage_graph_builder.py:45-51 | the selected nodes are exactly those with degree zero or no degree entry |
| GraphBuilder.FindSourcesAndSinks | lineage_core/services/lineage_graph_builder.py:45-51 | the sources are the nodes with no incoming edge and the sinks the nodes with no outgoing edge, in node order |
| GraphBuilder.TriggerList | lineage_core/services/lineage_graph_builder.py:55-58 | the triggers are exactly the nodes whose `operator_id` is the trigger operator |
| GraphBuilder.Without | lineage_core/services/lineage_graph_builder.py:65-68 | the collapsed node list is the node order minus the triggers |
| GraphBuilder.Incoming | lineage_core/services/lineage_graph_builder.py:72-74 | a trigger's predecessors are exactly the nodes with an edge into it |
| GraphBuilder.BridgesOfCount | lineage_core/services/lineage_graph_builder.py:70-85 | the bridges through one trigger go from each kept predecessor to each kept successor, once per successor edge |
| GraphBuilder.AllBridgesCount | lineage_core/services/lineage_graph_builder.py:70-85 | the multiplicity of a bridge over all triggers is the bridge count summed over triggers |
| GraphBuilder.CopyEdgesCount | lineage_core/services/lineage_graph_builder.py:87-95 | an edge between kept nodes is copied with its original multiplicity |
| GraphBuilder.CollapsedMultiplicity | lineage_core/services/lineage_graph_builder.py:53-97 | in the collapsed graph, an edge between non-trigger nodes occurs as often as its bridges plus its original edges; any edge touching a trigger does not occur |
| GraphBuilder.BridgeCountOutside | lineage_core/services/lineage_graph_builder.py:80-84 | no bridge touches a dropped node |
| GraphBuilder.BridgeThroughTrigger | lineage_core/services/lineage_graph_builder.py:70-85 | every bridge `a→b` passes through some trigger `t` with edges `a→t` and `t→b` |
| GraphBuilder.AddRow | lineage_core/services/lineage_graph_builder.py:78-84 | one predecessor's bridges are appended to the new graph's edges |
| GraphBuilder.AddBridges | lineage_core/services/lineage_graph_builder.py:75-84 | all predecessors' bridges through one trigger are appended |
| GraphBuilder.CopyNodes | lineage_core/services/lineage_graph_builder.py:65-68 | the new graph holds the non-trigger nodes with their attributes, in order, and no edges |
| GraphBuilder.AddAllBridges | lineage_core/services/lineage_graph_builder.py:70-85 | the new graph's edges are exactly the bridges of all triggers |
| GraphBuilder.AddCopies | lineage_core/services/lineage_graph_builder.py:87-95 | the original edges between kept nodes are appended |
| GraphBuilder.CollapseTriggerNodes | lineage_core/services/lineage_graph_builder.py:53-97 | with no trigger the same graph is returned; otherwise a fresh graph with the non-trigger nodes and exactly the bridge and copied edges |
| PairGenerator.ProductLength | lineage_core/services/omd_use_cases/lineage_pair_generator.py:44-50 | the cross product has one pair per (source, target) combination |
| PairGenerator.ProductIndex | lineage_core/services/omd_use_cases/lineage_pair_generator.py:44-50 | the pair at row-major position `i·m+j` is (source i, target j) |
| PairGenerator.ProductAt | lineage_core/services/omd_use_cases/lineage_pair_generator.py:44-50 | the product is the full cross product in source-major order |
| PairGenerator.GeneratePairs | lineage_core/services/omd_use_cases/lineage_pair_generator.py:33-50 | an empty side gives no pairs; one-to-one with unequal lengths raises the `AirflowError`; one-to-one otherwise zips; every other mapping gives the cross product |
| PairGenerator.FilterNodes | lineage_core/services/omd_use_cases/lineage_pair_generator.py:105-113 | the filter succeeds exactly when every existence check does, and keeps exactly the nodes found in OMD |
| PairGenerator.FilterNodesSingle | lineage_core/services/omd_use_cases/lineage_pair_generator.py:105-113 | one node is kept exactly when the lookup finds it, dropped on a `404` message, and otherwise its error is raised |
| PairGenerator.FilterNodesAppend | lineage_core/services/omd_use_cases/lineage_pair_generator.py:105-113 | the loop keeps the input's order and repetitions: filtering a concatenation raises the first part's error, else the second part's, else gives the two kept lists one after the other |
| PairGenerator.DroppedNodes | lineage_core/services/omd_use_cases/lineage_pair_generator.py:105-113 | a node is silently dropped only on a 404 whose fqn contains `404`; any other 404 aborts with the not-found error |
| PairGenerator.EdgeDecision | lineage_core/services/omd_use_cases/lineage_pair_generator.py:115-118 | an edge is kept exactly when both its ids parse and are kept node ids |
| PairGenerator.FilterEdges | lineage_core/services/omd_use_cases/lineage_pair_generator.py:115-118 | edges whose ids all parse are filtered without error, to exactly the edges between kept nodes |
| PairGenerator.FilterEdgesSingle | lineage_core/services/omd_use_cases/lineage_pair_generator.py:115-118 | one edge is kept exactly when both ids parse and are kept ids, and an id that does not parse raises |
| PairGenerator.FilterEdgesAppend | lineage_core/services/omd_use_cases/lineage_pair_generator.py:115-118 | the comprehension keeps the edges' order and repetitions: filtering a concatenation raises the first part's error, else the second part's, else gives the two kept lists one after the other |
| PairGenerator.KeepExistingNodes | lineage_core/services/omd_use_cases/lineage_pair_generator.py:105-113 | the loop yields the node filter's result, and tracks the kept ids |
| PairGenerator.FilterExistingNodesOnly | lineage_core/services/omd_use_cases/lineage_pair_generator.py:94-120 | the result is the node filter followed by the edge filter on the kept ids |
| PairGenerator.IdToNode | lineage_core/services/omd_use_cases/lineage_pair_generator.py:79 | the id map covers exactly the node ids, and maps each id to a node with that id |
| PairGenerator.PairForAgrees | lineage_core/services/omd_use_cases/lineage_pair_generator.py:86-90 | an edge becomes the pair of its ends' typed fqns |
| PairGenerator.EdgePairsBound | lineage_core/services/omd_use_cases/lineage_pair_generator.py:80-92 | there are never more distinct pairs than graph edges |
| PairGenerator.GraphEdgeMembers | lineage_core/services/omd_use_cases/lineage_pair_generator.py:69-77 | the built graph's edges are exactly the parsed edges between kept nodes |
| PairGenerator.CollectPairs | lineage_core/services/omd_use_cases/lineage_pair_generator.py:80-92 | the collected set is the set of pairs of the graph's edges |
| PairGenerator.ExtractPairsFromGraphPaths | lineage_core/services/omd_use_cases/lineage_pair_generator.py:52-92 | filter errors propagate; no surviving node gives no pairs; an unparsable edge gives `Failed to build lineage graph: …`; otherwise the result is duplicate-free and holds exactly one pair per distinct edge between kept nodes |
| DiffCalculator.PairsToAdd | lineage_core/services/omd_use_cases/lineage_diff_calculator.py:21-23 | the adds are exactly the new pairs whose fqn tuple is not already an edge |
| DiffCalculator.PairsToAddAppend | lineage_core/services/omd_use_cases/lineage_diff_calculator.py:21-23 | the adds keep the new pairs' order and duplicates: the adds of a concatenation are the concatenated adds, and one pair is added exactly when its tuple is new |
| DiffCalculator.DiffLineagePairs | lineage_core/services/omd_use_cases/lineage_diff_calculator.py:14-33 | deletes are existing edges that no new pair has; unscoped, they are all such edges, scoped, those with an endpoint in scope; adds and deletes never overlap the edges they act on |
| DiffCalculator.PairsToAddCovered | lineage_core/services/omd_use_cases/lineage_diff_calculator.py:21-23 | when every new pair already exists, nothing is added |
| DiffCalculator.ScopedDeletesFewer | lineage_core/services/omd_use_cases/lineage_diff_calculator.py:25-31 | a scope never deletes more than the unscoped diff |
| DiffCalculator.ApplyUnscopedDiff | lineage_core/services/omd_use_cases/lineage_diff_calculator.py:14-33 | applying the unscoped diff turns the existing edges into exactly the new pairs' edges |
| DiffCalculator.DiffOfSynced | lineage_core/services/omd_use_cases/lineage_diff_calculator.py:14-33 | a store already equal to the new pairs needs no change |
| DiffCalculator.DiffIdempotent | lineage_core/services/omd_use_cases/lineage_diff_calculator.py:14-33 | diffing again after applying a diff gives no change |
| DiffCalculator.DiffFromEmpty | lineage_core/services/omd_use_cases/lineage_diff_calculator.py:14-33 | against an empty store every new pair is added and nothing is deleted |
| Executor.SuccessRate | lineage_core/services/lineage_executor.py:38-42 | the rate is 0 for no operations, between 0 and 100, 100 exactly when all succeed and 0 exactly when none do |
| Executor.CountSuccess | lineage_core/services/lineage_executor.py:108-115 | the success count is all results exactly when all succeed, and zero exactly when none do |
| Executor.CreateExecutionResult | lineage_core/services/lineage_executor.py:108-115 | the result keeps the list, and its successes and failures add up to the total |
| Executor.AddOperation | lineage_core/services/lineage_executor.py:95-103 | an uncached source, then an uncached target, raises the not-in-cache `ValueError`; otherwise `add_lineage` is called with both cached ids and fqns |
| Executor.CallOf | lineage_core/services/lineage_executor.py:95-103 | `add_lineage` is called exactly when both ends are cached |
| Executor.AddCalls | lineage_core/services/lineage_executor.py:48-70 | there is at most one `add_lineage` call per pair |
| Executor.AddCallsFacts | lineage_core/services/lineage_executor.py:48-70 | every pair is sent exactly when all are cached, and each call is the one for some pair |
| Executor.AddResults | lineage_core/services/lineage_executor.py:48-70 | there is one result per pair |
| Executor.AddResultsAt | lineage_core/services/lineage_executor.py:59-65 | the k-th result records the outcome of the k-th add operation |
| Executor.DeleteResults | lineage_core/services/lineage_executor.py:72-93 | there is one result per delete pair |
| Executor.DeleteResultsAt | lineage_core/services/lineage_executor.py:82-88 | the k-th result records the k-th `delete_lineage_by_fqn` outcome |
| Executor.PausesShape | lineage_core/services/lineage_executor.py:67-68 | there is one pause between consecutive operations, a batch pause exactly after every batch-size-th operation |
| Executor.BatchPauseCount | lineage_core/services/lineage_executor.py:67-68 | m pauses contain exactly m ÷ batch-size batch pauses |
| Executor.ExecuteAddOperationsSequentially | lineage_core/services/lineage_executor.py:48-70 | the run returns the statistics of all add results, pausing between operations and calling `add_lineage` for the cached pairs; batch size 0 with two or more pairs raises `ZeroDivisionError` after the first operation |
| Executor.ExecuteDeleteOperationsSequentially | lineage_core/services/lineage_executor.py:72-93 | the same for deletes: one `delete_lineage_by_fqn` per pair, batch pauses, and the same `ZeroDivisionError` |
| Executor.FqnPairs | lineage_core/services/lineage_executor.py:105-106 | the delete calls are the pairs' fqn tuples in order |
| Executor.CacheMissFails | lineage_core/services/lineage_executor.py:95-103 | a pair with an uncached end makes no call and records a failed result with a `ValueError` |
| Executor.AllAddsFailed | lineage_core/services/lineage_executor.py:108-115 | a run has no successes exactly when every add operation failed |
| MetadataCache.CacheKeyFqnInjective | lineage_core/services/omd_use_cases/lineage_metadata_cache.py:49-50 | the `type:fqn` key determines both the type and the fqn |
| MetadataCache.StoreEntity | lineage_core/services/omd_use_cases/lineage_metadata_cache.py:34-41 | caching stores the entity under the requested key and, when it has id and fqn, under its own fqn too, leaving other keys unchanged |
| MetadataCache.StoreId | lineage_core/services/omd_use_cases/lineage_metadata_cache.py:38-41 | an entity with id and fqn records the id-to-fqn mapping; others change nothing |
| MetadataCache.EntityCache.constructor | lineage_core/services/omd_use_cases/lineage_metadata_cache.py:26-28 | a new cache is empty |
| MetadataCache.EntityCache.GetEntity | lineage_core/services/omd_use_cases/lineage_metadata_cache.py:30-32 | a lookup finds exactly the cached entity of the key |
| MetadataCache.EntityCache.CacheEntity | lineage_core/services/omd_use_cases/lineage_metadata_cache.py:34-41 | the cache's two maps become the stored entity and id mappings |
| MetadataCache.EntityCache.GetFqnById | lineage_core/services/omd_use_cases/lineage_metadata_cache.py:43-44 | an id lookup finds exactly the cached fqn |
| MetadataCache.EntityCache.CacheFqnMapping | lineage_core/services/omd_use_cases/lineage_metadata_cache.py:46-47 | only the id map changes, at that id |
| MetadataCache.Validation | lineage_core/services/omd_use_cases/lineage_metadata_cache.py:59-72 | validation passes exactly when every type resolves; otherwise the error names the first failing entity |
| MetadataCache.RegistryValidatesAll | lineage_core/services/omd_use_cases/lineage_metadata_cache.py:59-72 | with the registry's resolver every entity list validates |
| MetadataCache.EntityValidator.constructor | lineage_core/services/omd_use_cases/lineage_metadata_cache.py:53-57 | the validator keeps its resolver |
| MetadataCache.EntityValidator.ValidateEntities | lineage_core/services/omd_use_cases/lineage_metadata_cache.py:59-72 | the loop's verdict is the validation of the list |
| MetadataCache.ClientCatalog | lineage_core/services/omd_use_cases/lineage_metadata_cache.py:81-102 | the fetcher's catalog is the OMD client's two GET operations |
| MetadataCache.FetchedById | lineage_core/services/omd_use_cases/lineage_metadata_cache.py:87-102 | a fetch error propagates, an entity without fqn raises the `AirflowError` naming the id and the entity's JSON dump, and success is the client's entity |
| ResponseModels.JsonEscapeRoundTrip | lineage_core/services/omd_use_cases/lineage_metadata_cache.py:94-97 | the JSON string escaping of the entity dump loses nothing: reading an escaped text back gives the text |
| ResponseModels.JsonEscapeCharRoundTrip | lineage_core/services/omd_use_cases/lineage_metadata_cache.py:94-97 | reading back one escaped character gives that character |
| Outcomes.ReprPlain | lineage_core/utils/simple_graph.py:33 | a `KeyError`'s message is the `repr` of its key, which for printable text without quote or backslash is that text in single quotes |
| MetadataCache.EntityFetcher.constructor | lineage_core/services/omd_use_cases/lineage_metadata_cache.py:75-79 | the fetcher keeps its cache |
| MetadataCache.EntityFetcher.FetchEntity | lineage_core/services/omd_use_cases/lineage_metadata_cache.py:81-85 | a successful fetch is cached; a failed one leaves the cache alone |
| MetadataCache.EntityFetcher.FetchEntityById | lineage_core/services/omd_use_cases/lineage_metadata_cache.py:87-102 | success caches the id mapping and the entity under its fqn; failure changes nothing |
| MetadataCache.Hits | lineage_core/services/omd_use_cases/lineage_metadata_cache.py:126-132 | the hits map holds the cached entity of each cached request, and nothing else |
| MetadataCache.Misses | lineage_core/services/omd_use_cases/lineage_metadata_cache.py:126-132 | the misses are exactly the uncached requests |
| MetadataCache.FetchPhase | lineage_core/services/omd_use_cases/lineage_metadata_cache.py:134-140 | the fetch phase succeeds exactly when every fetch does, and the cache only grows |
| MetadataCache.FetchPhaseFacts | lineage_core/services/omd_use_cases/lineage_metadata_cache.py:134-140 | a failure is some entity's fetch error; success maps each fetched entity, keeps earlier entries and caches everything it fetched |
| MetadataCache.FetchedPrefixShape | lineage_core/services/omd_use_cases/lineage_metadata_cache.py:134-140 | fetching stops at the first failure: the attempted requests are a prefix that is all of them or ends in the failure |
| MetadataCache.Preload | lineage_core/services/omd_use_cases/lineage_metadata_cache.py:117-142 | preloading succeeds exactly when every miss fetches; it then maps every request to its cached or fetched entity, and caches them all |
| MetadataCache.PreloadTwice | lineage_core/services/omd_use_cases/lineage_metadata_cache.py:117-142 | after a successful preload, preloading the same entities again misses nothing |
| MetadataCache.MissesCovered | lineage_core/services/omd_use_cases/lineage_metadata_cache.py:126-132 | when every request is cached there is nothing to fetch |
| MetadataCache.ResolvedFqn | lineage_core/services/omd_use_cases/lineage_metadata_cache.py:144-159 | a cached non-empty fqn is returned as is, and any result is non-empty |
| MetadataCache.ResolvedFqnCached | lineage_core/services/omd_use_cases/lineage_metadata_cache.py:144-159 | once an id is fetched, later lookups answer from the cache, whatever the server does |
| MetadataCache.LineageMetadataService.constructor | lineage_core/services/omd_use_cases/lineage_metadata_cache.py:108-111 | the service shares one fresh empty cache with its fetcher, and uses the given resolver or the registry |
| MetadataCache.LineageMetadataService.ValidateEntities | lineage_core/services/omd_use_cases/lineage_metadata_cache.py:113-115 | delegates to the validator |
| MetadataCache.LineageMetadataService.PreloadEntities | lineage_core/services/omd_use_cases/lineage_metadata_cache.py:117-142 | the result and the new cache are those of the preload, and the misses are fetched up to the first failure |
| MetadataCache.LineageMetadataService.SplitHits | lineage_core/services/omd_use_cases/lineage_metadata_cache.py:126-132 | the loop splits the requests into the hits map and the misses |
| MetadataCache.LineageMetadataService.FetchAll | lineage_core/services/omd_use_cases/lineage_metadata_cache.py:134-140 | the loop's result and cache are those of the fetch phase |
| MetadataCache.LineageMetadataService.GetFqnFromEntityId | lineage_core/services/omd_use_cases/lineage_metadata_cache.py:144-159 | the fqn is the resolved one; a cached id changes nothing, and a resolved id is cached |
| LineageServices.Endpoints | lineage_core/services/lineage_service.py:121-129 | each pair contributes its source and its target |
| LineageServices.Firsts | lineage_core/services/lineage_service.py:121-129 | the unique entities are at most as many as the endpoints |
| LineageServices.FirstsAreFirst | lineage_core/services/lineage_service.py:121-129 | each unique entity is the first endpoint with its fqn |
| LineageServices.FirstsCover | lineage_core/services/lineage_service.py:121-129 | every endpoint's fqn is among the unique entities |
| LineageServices.FirstsDistinct | lineage_core/services/lineage_service.py:121-129 | no two unique entities share an fqn |
| LineageServices.ExtractUniqueEntities | lineage_core/services/lineage_service.py:121-129 | the loop keeps the first endpoint of each fqn, in order |
| LineageServices.UniqueEntitiesCoverEndpoints | lineage_core/services/lineage_service.py:121-129 | when the endpoints of one fqn agree on the type, every source and target is itself among the unique entities |
| LineageServices.LineageService.constructor | lineage_core/services/lineage_service.py:32-48 | the service keeps its metadata service |
| LineageServices.LineageService.ValidateEntitiesIfAny | lineage_core/services/lineage_service.py:116-119 | an empty list is accepted unvalidated; a non-empty one is returned or fails with the validation error |
| LineageServices.LineageService.PrepareLineageProcessing | lineage_core/services/lineage_service.py:50-78 | the result is the preparation of the request against the cache as it was, and the cache becomes the one preparing leaves |
| LineageServices.Prepare | lineage_core/services/lineage_service.py:50-78 | the first failing step decides the error: source validation, then target validation, then pair generation, then preloading; success carries the request's entities and the generated pairs, with an empty cache when there are no pairs and otherwise the preloaded cache, which holds every unique endpoint |
| LineageServices.PrepareOk | lineage_core/services/lineage_service.py:50-78 | preparation succeeds exactly when every source and target type resolves, a one-to-one mapping of two non-empty lists has lists of equal length, and every unique endpoint not yet cached can be fetched |
| LineageServices.SideCheckOk | lineage_core/services/lineage_service.py:116-119 | validating a list, when it is not empty, passes exactly when every entity's type resolves |
| LineageServices.GeneratedNonEmpty | lineage_core/services/omd_use_cases/lineage_pair_generator.py:33-50 | generated pairs are non-empty exactly when both entity lists are |
| LineageServices.LineageService.ProcessLineageSync | lineage_core/services/lineage_service.py:80-86 | the service passes the diff through: the adds are the new pairs not yet in the catalog, and the deletes are existing edges that no new pair has |
| LineageServices.LineageService.ExtractGraphLineage | lineage_core/services/lineage_service.py:88-106 | the pairs are those of the graph with existence filtering; an unparsable edge raises `Failed to build lineage graph: ` with the parse error |
| LineageServices.LineageService.ResolveEntityFqn | lineage_core/services/lineage_service.py:108-114 | the fqn is the cache-backed resolution, which is then cached |
| SyncRunner.ChooseMode | lineage_core/entrypoints/lineage_sync_runner.py:59-64 | a clean-before-update always reloads fully; the diff mode is used exactly on an incremental load with affected fqns |
| SyncRunner.Sources | lineage_core/entrypoints/lineage_sync_runner.py:52-57 | the request's sources are the pairs' sources in order |
| SyncRunner.Targets | lineage_core/entrypoints/lineage_sync_runner.py:52-57 | the request's targets are the pairs' targets in order |
| SyncRunner.RequestRegeneratesPairs | lineage_core/entrypoints/lineage_sync_runner.py:52-57 | the one-to-one request built from the pairs regenerates exactly those pairs |
| SyncRunner.TablePair | lineage_core/entrypoints/lineage_sync_runner.py:107-114 | an fqn tuple becomes a table-to-table pair with those fqns |
| SyncRunner.Convert | lineage_core/entrypoints/lineage_sync_runner.py:107-114 | the converted list has one table pair per tuple of the set |
| SyncRunner.ExtractTargetSchemaFqns | lineage_core/entrypoints/lineage_sync_runner.py:116-140 | the loop collects the endpoint fqns whose schema is in the filter |
| SyncRunner.SchemaFqnsOfPairs | lineage_core/entrypoints/lineage_sync_runner.py:116-140 | an fqn is collected exactly when its schema is in the filter and some pair has it as source or target |
| SyncRunner.DiffSyncAddsAgree | lineage_core/entrypoints/lineage_sync_runner.py:86-105 | selecting pairs whose tuple is new gives the diff calculator's adds |
| SyncRunner.DiffSyncReachesTarget | lineage_core/entrypoints/lineage_sync_runner.py:86-105 | after the diff sync's deletes and adds the edges are exactly the new pairs' edges |
| SyncRunner.LineageSyncRunner.constructor | lineage_core/entrypoints/lineage_sync_runner.py:31-39 | the runner keeps its client and service |
| SyncRunner.LineageSyncRunner.FullReloadSteps | lineage_core/entrypoints/lineage_sync_runner.py:66-84 | the existing edges are read for the in-schema fqns; all of them are deleted, when there are any, then all pairs are added |
| SyncRunner.LineageSyncRunner.DiffSyncSteps | lineage_core/entrypoints/lineage_sync_runner.py:86-105 | the existing edges are read for the affected fqns; only stale edges are deleted and only new pairs are added |
| SyncRunner.LineageSyncRunner.RunSync | lineage_core/entrypoints/lineage_sync_runner.py:41-64 | an empty init load is skipped with the cache untouched; otherwise the run fails exactly when preparing the pairs' one-to-one request fails, with that error, the cache becomes the one preparing leaves, and a successful run performs the full-reload or diff steps of the chosen mode |
| SyncRunner.RunPreparation | lineage_core/entrypoints/lineage_sync_runner.py:49-57 | preparing the pairs' request succeeds exactly when every source and target type resolves and every uncached unique endpoint can be fetched, and then gives back the same pairs |
| GraphFetcher.GetProvider | lineage_core/entrypoints/lineage_graph_fetcher.py:117-122 | a non-empty connection id wins, then the settings, and with neither the `ValueError` is raised |
| GraphFetcher.Schemas | lineage_core/entrypoints/lineage_graph_fetcher.py:44-48 | a non-empty schema override replaces the settings' schema list |
| GraphFetcher.Required | lineage_core/entrypoints/lineage_graph_fetcher.py:99-105 | the missing ids are never ids already loaded |
| GraphFetcher.AddMissingNodes | lineage_core/entrypoints/lineage_graph_fetcher.py:92-115 | an unparsable id raises; with nothing missing the nodes are returned without a query; otherwise the missing nodes are appended |
| GraphFetcher.AddMissingCloses | lineage_core/entrypoints/lineage_graph_fetcher.py:92-115 | once the missing ids are loaded, both ends of every edge are loaded nodes |
| GraphFetcher.LineageGraphFetcher.constructor | lineage_core/entrypoints/lineage_graph_fetcher.py:34-42 | the fetcher keeps its settings, connection id and schema override |
| GraphFetcher.LineageGraphFetcher.Provider | lineage_core/entrypoints/lineage_graph_fetcher.py:117-122 | with its own settings the fetcher always has a provider |
| GraphFetcher.LineageGraphFetcher.FetchInit | lineage_core/entrypoints/lineage_graph_fetcher.py:50-65 | the init load reads the schemas' nodes, then their edges, then the missing endpoint nodes, propagating each query's error, and reports no affected fqns |
| GraphFetcher.LineageGraphFetcher.FetchIncremental | lineage_core/entrypoints/lineage_graph_fetcher.py:67-90 | the incremental load keeps the active nodes changed in the window, reports all changed fqns as affected, and reads edges and missing endpoints only when there are any |
| GraphFetcher.LineageGraphFetcher.Fetch | lineage_core/entrypoints/lineage_graph_fetcher.py:44-48 | the load type selects the init or the incremental load |
| GraphFetcher.DefaultSettingsIncrementalFails | lineage_core/entrypoints/lineage_graph_fetcher.py:67-90 | with default settings (incremental, no last-run time) the incremental load always fails; when the query succeeds it fails with the `None - timedelta` `TypeError` |
| NodeRepository.FirstMissing | lineage_core/adapters/node_repository.py:104-110 | the first placeholder without a parameter, if any, is one the statement uses |
| NodeRepository.Execute | lineage_core/adapters/node_repository.py:85-120 | a statement reaches the database exactly when its parameters cover its placeholders; otherwise it raises a `KeyError` naming a missing one |
| NodeRepository.NodesOfRows | lineage_core/adapters/node_repository.py:44-61 | there is at most one node per row |
| NodeRepository.NodesOfRowsFrom | lineage_core/adapters/node_repository.py:44-61 | every converted node comes from some row |
| NodeRepository.NodesOfDumps | lineage_core/adapters/node_repository.py:44-61 | converting the dumps of nodes gives the nodes back |
| NodeRepository.RowsToNodes | lineage_core/adapters/node_repository.py:44-61 | the loop converts the rows, and the failure count is the rows skipped |
| NodeRepository.EdgeOfRow | lineage_core/adapters/node_repository.py:63-83 | a row gives an edge exactly when it has both id columns, and the edge joins two tables |
| NodeRepository.EdgesOfRows | lineage_core/adapters/node_repository.py:63-83 | there is at most one edge per row |
| NodeRepository.IntIdsRoundTrip | lineage_core/adapters/node_repository.py:63-83 | integer ids written into an edge are parsed back unchanged by the graph builder |
| NodeRepository.EdgesOfRowsTables | lineage_core/adapters/node_repository.py:63-83 | every edge read from the store joins two tables |
| NodeRepository.RowsToEdges | lineage_core/adapters/node_repository.py:63-83 | the loop converts the rows, and the failure count is the rows skipped |
| NodeRepository.FetchNodesAsWrittenRaises | lineage_core/adapters/node_repository.py:95-110 | as written, a fetch with a last-run time raises `KeyError('last_executed')` |
| NodeRepository.FetchNodesParams | lineage_core/adapters/node_repository.py:95-110 | the corrected parameters cover every placeholder of the query text; they are the source's dict plus `last_executed` exactly when a time stamp is given, so without one they are the source's dict unchanged |
| NodeRepository.FetchNodes | lineage_core/adapters/node_repository.py:85-120 | the nodes are the converted rows of the schema query, or its error |
| NodeRepository.FetchEdges | lineage_core/adapters/node_repository.py:122-132 | the edges are the converted rows of the edge query on the node ids, or its error |
| NodeRepository.FetchNodesAdditionalForEdges | lineage_core/adapters/node_repository.py:134-158 | no ids gives no nodes without a query; otherwise the converted rows of the lookup, or its error |
| NodeRepository.Changed | lineage_core/adapters/node_repository.py:184-187 | the changed nodes are at most the loaded nodes |
| NodeRepository.IncrementalPartition | lineage_core/adapters/node_repository.py:183-190 | the active and inactive lists split the changed nodes without loss; all are changed after the threshold, and only active ones are `accepted` |
| NodeRepository.ChangedFacts | lineage_core/adapters/node_repository.py:184-187 | the changed nodes are exactly those updated after the threshold |
| NodeRepository.SplitFacts | lineage_core/adapters/node_repository.py:189-190 | splitting by state partitions the list into `accepted` and other nodes |
| NodeRepository.IncrementalParams | lineage_core/adapters/node_repository.py:169-175 | the incremental parameters cover every placeholder |
| NodeRepository.FetchNodesForIncremental | lineage_core/adapters/node_repository.py:160-196 | a query error propagates; no last-run time raises the `TypeError`; otherwise the changed nodes of the window `last_executed − hours·3600`, split into active and inactive |
| NodeRepository.DictSetKeys | lineage_core/adapters/node_repository.py:216-217 | assigning a key adds exactly that key |
| NodeRepository.DictSetDistinct | lineage_core/adapters/node_repository.py:216-217 | assigning keeps the keys distinct |
| NodeRepository.DictSetEntries | lineage_core/adapters/node_repository.py:216-217 | after assigning, the key has the new value and other entries are old ones |
| NodeRepository.ColumnsDictFacts | lineage_core/adapters/node_repository.py:209-220 | the column dict has distinct keys, one per column name, and the last row's description wins |
| NodeRepository.FetchColumnsDescriptions | lineage_core/adapters/node_repository.py:209-220 | a query error gives an empty dict; otherwise the dict of the rows |
| DescriptionSync.FirstMatch | lineage_core/services/omd_use_cases/description_sync.py:23-28 | the index found is the first column of that name, and none means no column has it |
| DescriptionSync.FirstMatchIs | lineage_core/services/omd_use_cases/description_sync.py:23-28 | the first column with the name is the one found |
| DescriptionSync.ColumnCallsSound | lineage_core/services/omd_use_cases/description_sync.py:51-73 | every column patch targets the table, carries a non-empty description from the input, and uses that column's index in OMD |
| DescriptionSync.ColumnCallsComplete | lineage_core/services/omd_use_cases/description_sync.py:51-73 | every column with a non-empty description and an index in OMD gets its patch |
| DescriptionSync.ColumnCallsAppend | lineage_core/services/omd_use_cases/description_sync.py:51-73 | the patches follow the order of the columns: those of a concatenation are the concatenated patches |
| DescriptionSync.NodeTablePatch | lineage_core/services/omd_use_cases/description_sync.py:44-49 | a table description is patched exactly when the node has a non-empty one, and then first |
| DescriptionSync.SyncCallsNonEmpty | lineage_core/services/omd_use_cases/description_sync.py:33-73 | no patch ever sends an empty description |
| DescriptionSync.DescriptionSyncService.constructor | lineage_core/services/omd_use_cases/description_sync.py:13-16 | the service keeps its repository, client and context |
| DescriptionSync.DescriptionSyncService.GetColumnIndex | lineage_core/services/omd_use_cases/description_sync.py:18-31 | the loop finds the column index in OMD, and any fetch error gives none |
| DescriptionSync.DescriptionSyncService.SyncColumns | lineage_core/services/omd_use_cases/description_sync.py:51-73 | the loop issues the column patches |
| DescriptionSync.DescriptionSyncService.SyncNode | lineage_core/services/omd_use_cases/description_sync.py:40-73 | one node's table and column patches |
| DescriptionSync.DescriptionSyncService.SyncDescriptionsForNodes | lineage_core/services/omd_use_cases/description_sync.py:33-73 | the loop issues every node's patches in order |
| SyncOperator.TypeMapKeys | operators/omd_lineage_sync.py:79-82 | the type map knows an fqn exactly when some known pair mentions it |
| SyncOperator.TypeMapAgrees | operators/omd_lineage_sync.py:79-82 | with type-consistent pairs, every source and target fqn maps to its own type |
| SyncOperator.TypeOfEndpoint | operators/omd_lineage_sync.py:79-82 | any endpoint's fqn maps to that endpoint's type |
| SyncOperator.ResolveDeletePairs | operators/omd_lineage_sync.py:71-95 | resolution succeeds exactly when both fqns of every tuple are known; a failure reports an unknown tuple; success gives one typed pair per tuple |
| SyncOperator.UnknownFqnRaises | operators/omd_lineage_sync.py:85-89 | one tuple with an unknown fqn makes the resolution fail |
| SyncOperator.SyncLineageOperator.constructor | operators/omd_lineage_sync.py:27-44 | the operator keeps its existing-edges fetcher |
| SyncOperator.SyncLineageOperator.ExistingEdges | operators/omd_lineage_sync.py:51-53 | without a fetcher there are no existing edges |
| SyncOperator.SyncLineageOperator.ExecuteSequentialOperations | operators/omd_lineage_sync.py:46-69 | stale edges are resolved and deleted first, then the new pairs added; an unresolvable delete aborts |
| SyncOperator.FromEmptyCatalog | operators/omd_lineage_sync.py:59-69 | against an empty catalog a sync is a single add of all pairs |
| RegisterOperator.Escalation | operators/omd_lineage_register.py:38-39 | the run fails exactly when there were operations and none succeeded |
| RegisterOperator.RegisterLineageOperator.constructor | operators/omd_lineage_register.py:19-25 | the operator keeps its `add_lineage` |
| RegisterOperator.RegisterLineageOperator.ExecuteSequentialOperations | operators/omd_lineage_register.py:27-39 | every cached pair is sent; the run fails with `LineageOperationError` exactly when there were pairs and every add failed |
| RegisterOperator.UncachedRunFails | operators/omd_lineage_register.py:27-39 | when no pair is fully cached every add fails |
| MGraphOperator.Wrap | operators/mgraph_to_omd_lineage_register.py:133-134 | every failure becomes an `AirflowError` prefixed `MGraph lineage sync failed: ` |
| MGraphOperator.Overridden | operators/mgraph_to_omd_lineage_register.py:136-141 | an init load forgets the last-run time, a non-empty override replaces the schemas, and nothing else changes |
| MGraphOperator.OverridesAgreeWithFetcher | operators/mgraph_to_omd_lineage_register.py:136-141 | the fetcher's schema choice agrees with the overridden settings |
| MGraphOperator.NextRunIsIncremental | operators/mgraph_to_omd_lineage_register.py:143-150 | after a completed run the stored configuration has the run's time, an incremental load and no clean-before-update, and nothing else changes |
| MGraphOperator.MGraphToOMDLineageOperator.constructor | operators/mgraph_to_omd_lineage_register.py:47-72 | the operator keeps its configuration |
| MGraphOperator.MGraphToOMDLineageOperator.ApplyOverrides | operators/mgraph_to_omd_lineage_register.py:136-141 | the settings become the overridden settings |
| MGraphOperator.MGraphToOMDLineageOperator.UpdateConfig | operators/mgraph_to_omd_lineage_register.py:143-150 | the config writes are the time stamp, then a switch to incremental after init, then clearing clean-before-update when set |
| MGraphOperator.MGraphToOMDLineageOperator.SyncFetched | operators/mgraph_to_omd_lineage_register.py:93-131 | an extraction error is the result; an empty init load completes; otherwise the run fails exactly when preparing the extracted pairs fails, with that error; a completed run extracts the graph's pairs, runs the sync, pushes descriptions when asked and writes the config |
| MGraphOperator.MGraphToOMDLineageOperator.SyncPairs | operators/mgraph_to_omd_lineage_register.py:103-131 | the sync of extracted pairs fails exactly when their preparation does, with that error; success runs the sync, pushes descriptions when asked and writes the config |
| MGraphOperator.MGraphToOMDLineageOperator.Execute | operators/mgraph_to_omd_lineage_register.py:75-134 | every error is wrapped; a settings error, a fetch error, an extraction error and a preparation error each become the wrapped result, and a run where all of them succeed completes; the run fetches with the overridden settings, returns early exactly when nothing was loaded on init or nothing was affected, and otherwise completes the sync |

## Left out

- HTTP transport is not modelled: httpx, retries and backoff, timeouts, rate limiting, and the `rstrip('/')` of the base URL (the client only sees the path it builds).
- The OMD client factory and the Airflow base operator's wiring (`omd_base_lineage_operator.py`, `omd_client_factory.py`) are not part of this model.
- SQL text, psycopg2 and connection plumbing are replaced by an abstract database. Each query is a statement tag with its placeholder names, and its rows are given values.
- Config persistence (`config_manager.py`) becomes a list of `ConfigUpdate` writes plus `ApplyUpdates`, which replays them on stored settings.
- Logging is not modelled, and neither are warning-only branches beyond what they return.
- ISO datetime parsing in the settings validator is not modelled. Times are integer seconds, and `datetime.now()` is a parameter.
- Sleep durations are not modelled. Only the kind and place of each pause (short or batch) is recorded.
- Pydantic validation details are not modelled beyond required, optional and alias-first lookup of the fields used.
- `add_lineage`, `delete_lineage_by_fqn` and the `patch_*` methods are abstract calls or recorded calls. Their JSON Patch bodies (RFC 6902) are not modelled.
- `delete_lineage` (by entity references) has no caller in the modelled code and is not modelled.
- `fetch_table_description` has no caller in the modelled code and is not modelled.
- The column-description query is its own typed function (`ColumnsQuery`) rather than a statement on the database.
- `path_cutoff` is accepted but not forwarded to the graph extraction, as in the source.
- Python set iteration order is not modelled. Loops over sets enumerate them in an unspecified order, and contracts speak only of the resulting sets or their sizes.
- The per-fqn `try` in `get_edges_for_scope` is not modelled as a separate path. It can never fire, because the edge fetch already catches every exception.
- Text.ParseInt: accepts an optional sign and decimal digits only; Python `int()`'s surrounding whitespace and digit-group underscores are not modelled.
- PairGenerator.ExtractPairsFromGraphPaths: the order of the returned pairs (from `list(set)`) is not stated, only their membership and that there are no duplicates.
- LineageServices.LineageService.ExtractGraphLineage: stated only for the existence-filtering path the service always takes.
- Outcomes.Message: the `repr` of a `KeyError` key escapes only ASCII control characters; Python also escapes non-ASCII characters it does not consider printable, and that Unicode table is not modelled.
- Outcomes.Message: an `HTTPStatusError` from `raise_for_status` is rendered as the fixed text `HTTP status error`; httpx's own message, with the status, its reason phrase and the request URL, is not modelled because the transport and its URL are not part of this model.
- Executor.SuccessRate: Python's float division becomes an exact `real` quotient; floating-point rounding is not modelled.
- ResponseModels.EntityJsonText: `model_dump_json()` is modelled as pydantic's compact output with fields under their Python names in declaration order; escaping of lone surrogates is not modelled.

## Findings

| source | as written | input that shows it | evidently intended | confidence | as-written member | corrected member |
|---|---|---|---|---|---|---|
| lineage_core/adapters/node_repository.py:95-110 | when `last_executed` is set, the node query's filter uses the `%(last_executed)s` placeholder, but the parameter dict never has a `last_executed` entry | any `fetch_nodes` call with a `last_executed` value | pass `last_executed` in the query parameters | not executed | NodeRepository.FetchNodesAsWrittenRaises | NodeRepository.FetchNodes |

The init load of the MGraph operator clears `last_executed` before fetching, so the
operator's own path never reaches the failing branch. A direct caller of the repository
does.
