/** The operator that copies lineage from the operational store to the catalog
    (operators/mgraph_to_omd_lineage_register.py): load the settings, apply the
    operator's overrides, fetch the graph, return early when there is nothing to do,
    extract and sync the lineage pairs, optionally copy descriptions, and record the
    run in the stored configuration. The stored configuration is a `Settings` value and
    the updates are a trace; the clock is the parameter `now`. */
module MGraphOperator {
  import opened Outcomes
  import opened Types
  import opened Models
  import opened UseCases
  import opened NodeRepository
  import opened MetadataCache
  import opened LineageServices
  import opened SyncRunner
  import opened GraphFetcher
  import opened DescriptionSync
  import ApiClient

  const DefaultPathCutoff: int := 20
  const FailurePrefix: string := "MGraph lineage sync failed: "

  /** `raise AirflowException(f'MGraph lineage sync failed: {e}')`. */
  function Wrap(e: Error): (r: Error)
    ensures r.AirflowError? && r.message == FailurePrefix + Message(e)
  {
    AirflowError(FailurePrefix + Message(e))
  }

  // ---------------------------------------------------------------- _apply_overrides

  /** The settings after `_apply_overrides`. */
  function Overridden(s: Settings, schemaFilter: Option<seq<string>>): (r: Settings)
    ensures r.lastExecuted == (if s.loadType == Init then None else s.lastExecuted)
    ensures r.schemaFilter == (if schemaFilter.Some? && schemaFilter.value != [] then schemaFilter.value else s.schemaFilter)
    ensures r.(lastExecuted := s.lastExecuted, schemaFilter := s.schemaFilter) == s
  {
    var s1 := if s.loadType == Init then s.(lastExecuted := None) else s;
    if schemaFilter.Some? && schemaFilter.value != [] then s1.(schemaFilter := schemaFilter.value) else s1
  }

  /** The overridden settings and the fetcher agree on the schemas to read. */
  lemma OverridesAgreeWithFetcher(s: Settings, schemaFilter: Option<seq<string>>)
    ensures Schemas(schemaFilter, Overridden(s, schemaFilter)) == Overridden(s, schemaFilter).schemaFilter
  {
  }

  // ---------------------------------------------------------------- _update_config

  datatype FlagValue = StrFlag(s: string) | BoolFlag(b: bool)

  /** One write to the stored configuration. */
  datatype ConfigUpdate = LastExecutedUpdate(at: int) | FlagUpdate(flag: string, value: FlagValue)

  /** The writes of `_update_config` for the settings of the run. */
  function ConfigUpdates(s: Settings, now: int): seq<ConfigUpdate>
  {
    [LastExecutedUpdate(now)]
      + (if s.loadType == Init then [FlagUpdate("load_type", StrFlag(LoadTypeValue(Incremental)))] else [])
      + (if s.cleanBeforeUpdate then [FlagUpdate("clean_before_update", BoolFlag(false))] else [])
  }

  /** One write applied to the stored settings: the stored value is reloaded, the one
      field set, and saved; a flag the settings do not have is ignored. */
  function ApplyUpdate(stored: Settings, u: ConfigUpdate): Settings
  {
    match u
    case LastExecutedUpdate(at) => stored.(lastExecuted := Some(at))
    case FlagUpdate(flag, value) =>
      if flag == "load_type" && value.StrFlag? && value.s == LoadTypeValue(Incremental) then stored.(loadType := Incremental)
      else if flag == "load_type" && value.StrFlag? && value.s == LoadTypeValue(Init) then stored.(loadType := Init)
      else if flag == "clean_before_update" && value.BoolFlag? then stored.(cleanBeforeUpdate := value.b)
      else stored
  }

  function ApplyUpdates(stored: Settings, us: seq<ConfigUpdate>): Settings
    decreases |us|
  {
    if us == [] then stored else ApplyUpdates(ApplyUpdate(stored, us[0]), us[1..])
  }

  /** After a completed run the stored configuration holds the run's time stamp, an
      incremental load type and no clean-before-update request; nothing else changes,
      and in particular the operator's schema override is not persisted. */
  lemma NextRunIsIncremental(stored: Settings, schemaFilter: Option<seq<string>>, now: int)
    ensures var next := ApplyUpdates(stored, ConfigUpdates(Overridden(stored, schemaFilter), now));
      next == stored.(lastExecuted := Some(now), loadType := Incremental, cleanBeforeUpdate := false)
  {
    var s := Overridden(stored, schemaFilter);
    var us := ConfigUpdates(s, now);
    var s1 := ApplyUpdate(stored, us[0]);
    var rest := us[1..];
    if s.loadType == Init && s.cleanBeforeUpdate {
      assert rest == [FlagUpdate("load_type", StrFlag("incremental")), FlagUpdate("clean_before_update", BoolFlag(false))];
      assert rest[1..][1..] == [];
      var s2 := ApplyUpdate(s1, rest[0]);
      var s3 := ApplyUpdate(s2, rest[1]);
      assert ApplyUpdates(s1, rest) == ApplyUpdates(s2, rest[1..]) == ApplyUpdates(s3, rest[1..][1..]) == s3;
    } else if s.loadType == Init {
      assert rest == [FlagUpdate("load_type", StrFlag("incremental"))];
      assert rest[1..] == [];
      var s2 := ApplyUpdate(s1, rest[0]);
      assert ApplyUpdates(s1, rest) == ApplyUpdates(s2, rest[1..]) == s2;
    } else if s.cleanBeforeUpdate {
      assert rest == [FlagUpdate("clean_before_update", BoolFlag(false))];
      assert rest[1..] == [];
      var s2 := ApplyUpdate(s1, rest[0]);
      assert ApplyUpdates(s1, rest) == ApplyUpdates(s2, rest[1..]) == s2;
    } else {
      assert rest == [];
    }
  }

  // ---------------------------------------------------------------- execute

  datatype RunOutcome =
    | EarlyReturn(fetched: LineageGraphResult)
    | Completed(fetched: LineageGraphResult, pairs: seq<EntityPair>, run: SyncRun,
                descriptions: seq<PatchCall>, updates: seq<ConfigUpdate>)

  /** Python truthiness of the affected fqns. */
  predicate AnyAffected(affected: Option<set<string>>)
  {
    affected.Some? && affected.value != {}
  }

  /** `execute` stops before extraction: no nodes, and either an initial load or an
      incremental one with no affected fqns. */
  predicate IsEarly(s: Settings, fetched: LineageGraphResult)
  {
    fetched.nodes == [] && (s.loadType == Init || !AnyAffected(fetched.affectedFqns))
  }

  /** The fetch the run made with its settings. */
  ghost predicate FetchedWith(db: Database, s: Settings, schemas: seq<string>, r: Result<LineageGraphResult>)
  {
    && (s.loadType == Init ==> InitOutcome(db, s, schemas, r))
    && (s.loadType != Init ==> IncrementalOutcome(db, s, schemas, r))
  }

  /** What the run did after it fetched `fetched` with settings `s`. */
  ghost predicate CompletedRun(s: Settings, o: RunOutcome, client: ApiClient.LineageApiClient, columns: ColumnsQuery,
                               syncDescriptions: bool, now: int)
  {
    && o.Completed?
    && GraphLineageOf(o.fetched.nodes, o.fetched.edges, s.context, Some(client), Ok(o.pairs))
    && SyncedRun(s, o, client, columns, syncDescriptions, now)
  }

  /** What the run did with its extracted pairs: the sync, the description copy and the
      configuration writes. */
  ghost predicate SyncedRun(s: Settings, o: RunOutcome, client: ApiClient.LineageApiClient, columns: ColumnsQuery,
                            syncDescriptions: bool, now: int)
    requires o.Completed?
  {
    var nodes := o.fetched.nodes;
    && (o.pairs == [] && s.loadType == Init ==> o.run == Skipped)
    && (!(o.pairs == [] && s.loadType == Init) ==>
          && o.run.Ran? && o.run.processing.pairs == o.pairs
          && o.run.mode == ChooseMode(s.cleanBeforeUpdate, s.loadType, o.fetched.affectedFqns))
    && o.descriptions == (if syncDescriptions && nodes != [] then SyncCalls(ClientCatalog(client), columns, s.context, nodes) else [])
    && o.updates == ConfigUpdates(s, now)
  }

  class MGraphToOMDLineageOperator {
    const databaseConnId: string
    const schemaFilter: Option<seq<string>>
    const pathCutoff: int
    const syncDescriptions: bool
    const service: LineageService
    var settings: Option<Settings>

    constructor (databaseConnId: string, schemaFilter: Option<seq<string>>, settings: Option<Settings>,
                 pathCutoff: int, syncDescriptions: bool, service: LineageService)
      ensures this.databaseConnId == databaseConnId && this.schemaFilter == schemaFilter
      ensures this.settings == settings && this.pathCutoff == pathCutoff
      ensures this.syncDescriptions == syncDescriptions && this.service == service
    {
      this.databaseConnId := databaseConnId;
      this.schemaFilter := schemaFilter;
      this.settings := settings;
      this.pathCutoff := pathCutoff;
      this.syncDescriptions := syncDescriptions;
      this.service := service;
    }

    /** `_apply_overrides`: an INIT load forgets its time stamp, and a non-empty operator
        filter replaces the settings' one. */
    method ApplyOverrides()
      requires settings.Some?
      modifies this
      ensures settings == Some(Overridden(old(settings).value, schemaFilter))
    {
      var s := settings.value;
      if s.loadType == Init {
        s := s.(lastExecuted := None);
      }
      if schemaFilter.Some? && schemaFilter.value != [] {
        s := s.(schemaFilter := schemaFilter.value);
      }
      settings := Some(s);
    }

    /** `_update_config`: the writes, in order. */
    method UpdateConfig(now: int) returns (updates: seq<ConfigUpdate>)
      requires settings.Some?
      ensures updates == ConfigUpdates(settings.value, now)
    {
      updates := [LastExecutedUpdate(now)];
      if settings.value.loadType == Init {
        updates := updates + [FlagUpdate("load_type", StrFlag(LoadTypeValue(Incremental)))];
      }
      if settings.value.cleanBeforeUpdate {
        updates := updates + [FlagUpdate("clean_before_update", BoolFlag(false))];
      }
    }

    /** The description step of `execute`: only when enabled and there are nodes. */
    method SyncNodeDescriptions(s: Settings, nodes: seq<Node>, client: ApiClient.LineageApiClient, columns: ColumnsQuery)
      returns (descriptions: seq<PatchCall>)
      ensures descriptions == if syncDescriptions && nodes != [] then SyncCalls(ClientCatalog(client), columns, s.context, nodes) else []
    {
      descriptions := [];
      if syncDescriptions && nodes != [] {
        var descriptionSync := new DescriptionSyncService(columns, ClientCatalog(client), s.context);
        descriptions := descriptionSync.SyncDescriptionsForNodes(nodes);
      }
    }

    /** The part of `execute` after the early returns: extraction with trigger
        collapsing for the settings' operator, the sync, the optional description copy and
        the configuration writes. `extracted` is what the extraction returned: its error
        is passed on, and otherwise the run fails exactly when the sync's preparation of
        those pairs does, with that error. */
    method SyncFetched(s: Settings, fetched: LineageGraphResult, client: ApiClient.LineageApiClient,
                       columns: ColumnsQuery, now: int)
      returns (r: Result<RunOutcome>, ghost extracted: Result<seq<EntityPair>>)
      requires service.metadataService.fetcher.cache == service.metadataService.cache
      requires settings == Some(s)
      modifies service.metadataService.cache
      ensures GraphLineageOf(fetched.nodes, fetched.edges, s.context, Some(client), extracted)
      ensures extracted.Err? ==> r == Err(extracted.error)
      ensures extracted.Ok? && extracted.value == [] && s.loadType == Init ==> r.Ok?
      ensures extracted.Ok? && !(extracted.value == [] && s.loadType == Init) ==>
        var p := Prepare(service.metadataService.validator.pathResolver, RunRequest(extracted.value), ClientCatalog(client),
                         old(service.metadataService.cache.entityCache), old(service.metadataService.cache.idToFqnCache));
        (r.Err? <==> p.Err?) && (p.Err? ==> r == Err(p.error))
      ensures r.Ok? ==>
        r.value.Completed? && r.value.fetched == fetched && extracted == Ok(r.value.pairs) && CompletedRun(s, r.value, client, columns, syncDescriptions, now)
    {
      var extraction := service.ExtractGraphLineage(fetched.nodes, fetched.edges, s.context, pathCutoff, true,
                                                    Some(s.operatorId), Some(client));
      extracted := extraction;
      if extraction.Err? {
        return Err(extraction.error), extracted;
      }
      r := SyncPairs(s, fetched, extraction.value, client, columns, now);
    }

    /** The sync of the extracted pairs, the description copy and the configuration
        writes: an initial load with no pairs completes, and otherwise the run fails
        exactly when the preparation of the pairs does, with its error. */
    method SyncPairs(s: Settings, fetched: LineageGraphResult, pairs: seq<EntityPair>, client: ApiClient.LineageApiClient,
                     columns: ColumnsQuery, now: int)
      returns (r: Result<RunOutcome>)
      requires service.metadataService.fetcher.cache == service.metadataService.cache
      requires settings == Some(s)
      modifies service.metadataService.cache
      ensures pairs == [] && s.loadType == Init ==> r.Ok?
      ensures !(pairs == [] && s.loadType == Init) ==>
        var p := Prepare(service.metadataService.validator.pathResolver, RunRequest(pairs), ClientCatalog(client),
                         old(service.metadataService.cache.entityCache), old(service.metadataService.cache.idToFqnCache));
        (r.Err? <==> p.Err?) && (p.Err? ==> r == Err(p.error))
      ensures r.Ok? ==>
        r.value.Completed? && r.value.fetched == fetched && r.value.pairs == pairs && SyncedRun(s, r.value, client, columns, syncDescriptions, now)
    {
      var runner := new LineageSyncRunner(client, service);
      var schemaSet := set f | f in s.schemaFilter;
      var run := runner.RunSync(pairs, s.loadType, s.cleanBeforeUpdate, schemaSet, fetched.affectedFqns);
      if run.Err? {
        return Err(run.error);
      }
      var descriptions := SyncNodeDescriptions(s, fetched.nodes, client, columns);
      var updates := UpdateConfig(now);
      r := Ok(Completed(fetched, pairs, run.value, descriptions, updates));
    }

    /** `execute`. Any failure is re-raised wrapped; no configuration write happens on an
        early return or a failure. `fetched` is what the graph fetch returned and
        `extracted` what the extraction returned, when the run gets that far: the run
        fails exactly when the settings do not load, the fetch fails, the extraction
        fails or the sync's preparation fails, each with its own error wrapped. */
    method Execute(loaded: Result<Settings>, connect: Connect, columnsOf: ConnectionProvider -> ColumnsQuery,
                   client: ApiClient.LineageApiClient, now: int)
      returns (r: Result<RunOutcome>, ghost fetched: Result<LineageGraphResult>, ghost extracted: Result<seq<EntityPair>>)
      requires service.metadataService.fetcher.cache == service.metadataService.cache
      modifies this, service.metadataService.cache
      ensures loaded.Err? ==> r == Err(Wrap(loaded.error))
      ensures r.Err? ==> exists e :: r.error == Wrap(e)
      ensures loaded.Ok? ==> settings == Some(Overridden(loaded.value, schemaFilter))
      ensures loaded.Ok? ==>
        var s := Overridden(loaded.value, schemaFilter);
        var provider := GetProvider(Some(databaseConnId), Some(s)).value;
        && FetchedWith(connect(provider), s, Schemas(schemaFilter, s), fetched)
        && (fetched.Err? ==> r == Err(Wrap(fetched.error)))
        && (fetched.Ok? && IsEarly(s, fetched.value) ==> r == Ok(EarlyReturn(fetched.value)))
        && (fetched.Ok? && !IsEarly(s, fetched.value) ==>
              && GraphLineageOf(fetched.value.nodes, fetched.value.edges, s.context, Some(client), extracted)
              && (extracted.Err? ==> r == Err(Wrap(extracted.error)))
              && (extracted.Ok? && extracted.value == [] && s.loadType == Init ==> r.Ok?)
              && (extracted.Ok? && !(extracted.value == [] && s.loadType == Init) ==>
                    var p := Prepare(service.metadataService.validator.pathResolver, RunRequest(extracted.value), ClientCatalog(client),
                                     old(service.metadataService.cache.entityCache), old(service.metadataService.cache.idToFqnCache));
                    (r.Err? <==> p.Err?) && (p.Err? ==> r == Err(Wrap(p.error)))))
      ensures r.Ok? ==>
        var s := Overridden(loaded.value, schemaFilter);
        var provider := GetProvider(Some(databaseConnId), Some(s)).value;
        var o := r.value;
        && loaded.Ok? && fetched == Ok(o.fetched)
        && (o.EarlyReturn? <==> IsEarly(s, o.fetched))
        && (o.Completed? ==> CompletedRun(s, o, client, columnsOf(provider), syncDescriptions, now))
    {
      if loaded.Err? {
        return Err(Wrap(loaded.error)), Err(loaded.error), Err(loaded.error);
      }
      settings := Some(loaded.value);
      ApplyOverrides();
      var s := settings.value;
      var graphFetcher := new LineageGraphFetcher(s, Some(databaseConnId), schemaFilter);
      var fetch := graphFetcher.Fetch(connect);
      fetched, extracted := fetch, Ok([]);
      if fetch.Err? {
        return Err(Wrap(fetch.error)), fetched, extracted;
      }
      var result := fetch.value;
      if result.nodes == [] && s.loadType == Init {
        return Ok(EarlyReturn(result)), fetched, extracted;
      }
      if result.nodes == [] && !AnyAffected(result.affectedFqns) {
        return Ok(EarlyReturn(result)), fetched, extracted;
      }
      var provider := graphFetcher.Provider();
      var outcome;
      outcome, extracted := SyncFetched(s, result, client, columnsOf(provider), now);
      if outcome.Err? {
        return Err(Wrap(outcome.error)), fetched, extracted;
      }
      r := outcome;
    }
  }
}
