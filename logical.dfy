/**
  Log-based (change tracking) sync of one table stream: the enablement gate that checks the
  database, then the table, then the table's object id and minimum valid version; the
  seeding of `initial_full_table_complete`; and the decision whether an initial full-table
  load is still needed.

  Every metadata query is answered by a `Source` value (what the connected server would
  return), and each check reports the queries it sent, in order, with its outcome. Each
  exception the source raises is an `Err`.
*/
module Logical {
  import opened Wrappers
  import opened Singer
  import Incremental

  /** The bookmark keys log-based mode keeps for a stream. */
  const BOOKMARK_KEYS: set<string> := {"current_log_version", "last_pk_fetched", "initial_full_table_complete"}

  const INITIAL_FULL_TABLE_COMPLETE := "initial_full_table_complete"

  /** The answers of the server to the metadata queries. */
  datatype Source = Source(
    // `DB_NAME(database_id)` of each row of sys.change_tracking_databases, in row order (None: NULL)
    trackedDatabases: seq<Option<string>>,
    // (schema name, table name) of each row of sys.change_tracking_tables
    trackedTables: seq<(string, string)>,
    // `OBJECT_ID(name)`; a name outside the map answers NULL
    objectIds: map<string, int>,
    // `CHANGE_TRACKING_MIN_VALID_VERSION(object_id)`; an id outside the map answers NULL
    minValidVersions: map<int, int>,
    // `CHANGE_TRACKING_CURRENT_VERSION()`
    currentVersion: Option<int>)

  datatype Query =
    | DatabasesQuery
    | TablesQuery
    | ObjectIdQuery(name: string)
    | MinValidVersionQuery(objectId: int)
    | CurrentVersionQuery

  /** What the checks raise: no row from sys.change_tracking_databases, the database or the
      table not tracked, a NULL object id, or a TypeError from an operator applied to None. */
  datatype Failure = NoRow | DatabaseNotTracked | TableNotTracked | ObjectIdNull | UnsupportedOperand

  /** A check's outcome together with the metadata queries it sent, in order. */
  datatype Run<T> = Run(queries: seq<Query>, outcome: Result<T, Failure>)

  /** Python's `v == True`, which also holds for the integer 1. */
  predicate IsTrue(v: Value) {
    v == Bool(true) || v == Int(1)
  }

  /** log_based_init_state on state values: seeds the completion flag with False when it
      reads as None, and otherwise leaves the state alone. */
  function InitialState(st: StateMap, id: string): (r: StateMap)
    ensures Lookup(st, id, INITIAL_FULL_TABLE_COMPLETE) != Null ==> r == st
    ensures Lookup(st, id, INITIAL_FULL_TABLE_COMPLETE) == Null ==>
      id in r && r[id].Keys == StreamBookmarks(st, id).Keys + {INITIAL_FULL_TABLE_COMPLETE}
    ensures Lookup(r, id, INITIAL_FULL_TABLE_COMPLETE) ==
      if Lookup(st, id, INITIAL_FULL_TABLE_COMPLETE) == Null then Bool(false)
      else Lookup(st, id, INITIAL_FULL_TABLE_COMPLETE)
    ensures forall k :: k != INITIAL_FULL_TABLE_COMPLETE ==> Lookup(r, id, k) == Lookup(st, id, k)
    ensures forall s :: s in st && s != id ==> s in r && r[s] == st[s]
    ensures forall s :: s in r ==> s in st || s == id
  {
    if Lookup(st, id, INITIAL_FULL_TABLE_COMPLETE) == Null then
      Written(st, id, INITIAL_FULL_TABLE_COMPLETE, Bool(false))
    else
      st
  }

  /** Seeding is done once: a second init leaves the state as the first one left it. */
  lemma InitialStateIdempotent(st: StateMap, id: string)
    ensures InitialState(InitialState(st, id), id) == InitialState(st, id)
  {
  }

  /** The comparison at the end of log_based_initial_full_table: a full load is skipped only
      when the flag equals True and the minimum valid version is below the current one.
      Comparing with a None version raises a TypeError. */
  function FullTableDecision(flag: Value, current: Option<int>, minValid: Option<int>): (r: Result<bool, Failure>)
    ensures r.Err? <==> current.None? || minValid.None?
    ensures r.Err? ==> r.error == UnsupportedOperand
    ensures r == Ok(false) <==>
      IsTrue(flag) && current.Some? && minValid.Some? && minValid.value < current.value
  {
    if minValid.None? || current.None? then Err(UnsupportedOperand)
    else
      var outOfDate := minValid.value < current.value;
      if IsTrue(flag) && outOfDate then Ok(false) else Ok(true)
  }

  /** A stream that init has just seeded can never skip the initial full load. */
  lemma FreshStreamLoadsFullTable(st: StateMap, id: string, current: Option<int>, minValid: Option<int>)
    requires Lookup(st, id, INITIAL_FULL_TABLE_COMPLETE) == Null
    ensures FullTableDecision(Lookup(InitialState(st, id), id, INITIAL_FULL_TABLE_COMPLETE), current, minValid) != Ok(false)
  {
  }

  /** Switching a stream between the two modes purges the other mode's bookmarks: the two
      whitelists share no key. */
  lemma ModeSwitchPurges(st: StateMap, id: string)
    ensures StreamBookmarks(Whitelisted(st, BOOKMARK_KEYS, id), id).Keys !! Incremental.BOOKMARK_KEYS
    ensures StreamBookmarks(Whitelisted(st, Incremental.BOOKMARK_KEYS, id), id).Keys !! BOOKMARK_KEYS
  {
  }

  /** The log-based strategy for one stream, with the fields its checks read. */
  class LogBasedSync {
    const streamId: string
    const databaseName: Option<string>
    const schemaName: string
    const tableName: string
    const state: SingerState

    /** `schemaName` is what the catalog entry names as the table's schema. */
    constructor (config: map<string, string>, tapStreamId: string, schemaName: string, tableName: string, state: SingerState)
      ensures this.databaseName == (if "database" in config then Some(config["database"]) else None)
      ensures this.streamId == tapStreamId && this.schemaName == schemaName && this.tableName == tableName
      ensures this.state == state
    {
      this.streamId := tapStreamId;
      this.databaseName := if "database" in config then Some(config["database"]) else None;
      this.schemaName := schemaName;
      this.tableName := tableName;
      this.state := state;
    }

    /** The name OBJECT_ID is asked about. */
    function ObjectName(): string {
      schemaName + "." + tableName
    }

    predicate DatabaseListedFirst(db: Source) {
      |db.trackedDatabases| > 0 && databaseName == db.trackedDatabases[0]
    }

    predicate TableListed(db: Source) {
      (schemaName, tableName) in db.trackedTables
    }

    predicate ObjectResolves(db: Source) {
      ObjectName() in db.objectIds
    }

    /** The minimum valid version the server reports for the table, once its id resolves. */
    function MinValid(db: Source): Option<int>
      requires ObjectResolves(db)
    {
      var id := db.objectIds[ObjectName()];
      if id in db.minValidVersions then Some(db.minValidVersions[id]) else None
    }

    /** Every query the gate would send if no check failed, in the order it sends them. */
    function GateQueries(db: Source): seq<Query> {
      [DatabasesQuery, TablesQuery, ObjectIdQuery(ObjectName())]
        + (if ObjectResolves(db) then [MinValidVersionQuery(db.objectIds[ObjectName()])] else [])
    }

    /** _get_change_tracking_database: only the first row returned is compared with the
        configured database, so a NULL name matches a configuration without one; no row at
        all raises too. */
    function GetChangeTrackingDatabase(db: Source): (r: Run<bool>)
      ensures r.queries == [DatabasesQuery]
      ensures r.outcome.Ok? <==> DatabaseListedFirst(db)
      ensures r.outcome.Ok? ==> r.outcome.value
      ensures r.outcome.Err? ==> r.outcome.error == (if db.trackedDatabases == [] then NoRow else DatabaseNotTracked)
    {
      if |db.trackedDatabases| == 0 then Run([DatabasesQuery], Err(NoRow))
      else if db.trackedDatabases[0] == databaseName then Run([DatabasesQuery], Ok(true))
      else Run([DatabasesQuery], Err(DatabaseNotTracked))
    }

    /** A passing database check means tracking is enabled for the configured database. */
    lemma DatabaseCheckSound(db: Source)
      ensures GetChangeTrackingDatabase(db).outcome.Ok? ==> databaseName in db.trackedDatabases
    {
    }

    /** The converse fails: tracking enabled for the configured database still fails the check
        whenever another tracked database is listed first. */
    lemma DatabaseCheckReadsFirstRowOnly()
      ensures exists db: Source ::
        databaseName in db.trackedDatabases && GetChangeTrackingDatabase(db).outcome.Err?
    {
      var other: Option<string> := if databaseName.None? then Some("") else None;
      var db := Source([other, databaseName], [], map[], map[], None);
      assert db.trackedDatabases[1] == databaseName;
      assert GetChangeTrackingDatabase(db).outcome.Err?;
    }

    /** _get_change_tracking_tables: succeeds exactly when (schema, table) is one of the rows. */
    function GetChangeTrackingTables(db: Source): (r: Run<bool>)
      ensures r.queries == [TablesQuery]
      ensures r.outcome.Ok? <==>
        exists i :: 0 <= i < |db.trackedTables| && db.trackedTables[i] == (schemaName, tableName)
      ensures r.outcome.Ok? ==> r.outcome.value
      ensures r.outcome.Err? ==> r.outcome.error == TableNotTracked
    {
      if (schemaName, tableName) in db.trackedTables then Run([TablesQuery], Ok(true))
      else Run([TablesQuery], Err(TableNotTracked))
    }

    /** _get_object_version_by_table_name: OBJECT_ID of "schema.table"; NULL raises. */
    function GetObjectVersionByTableName(db: Source): (r: Run<int>)
      ensures r.queries == [ObjectIdQuery(schemaName + "." + tableName)]
      ensures r.outcome.Ok? <==> schemaName + "." + tableName in db.objectIds
      ensures r.outcome.Ok? ==> r.outcome.value == db.objectIds[schemaName + "." + tableName]
      ensures r.outcome.Err? ==> r.outcome.error == ObjectIdNull
    {
      if ObjectName() in db.objectIds then Run([ObjectIdQuery(ObjectName())], Ok(db.objectIds[ObjectName()]))
      else Run([ObjectIdQuery(ObjectName())], Err(ObjectIdNull))
    }

    /** _get_min_valid_version: resolves the object id first and asks for the minimum valid
        version of that id only once it resolved; the answer may be NULL. */
    function GetMinValidVersion(db: Source): (r: Run<Option<int>>)
      ensures r.outcome.Ok? <==> ObjectResolves(db)
      ensures ObjectResolves(db) ==>
        && r.queries == [ObjectIdQuery(ObjectName()), MinValidVersionQuery(db.objectIds[ObjectName()])]
        && r.outcome.value == MinValid(db)
      ensures !ObjectResolves(db) ==> r == Run([ObjectIdQuery(ObjectName())], Err(ObjectIdNull))
    {
      var objectId := GetObjectVersionByTableName(db);
      if objectId.outcome.Err? then Run(objectId.queries, Err(objectId.outcome.error))
      else
        var id := objectId.outcome.value;
        Run(objectId.queries + [MinValidVersionQuery(id)],
            Ok(if id in db.minValidVersions then Some(db.minValidVersions[id]) else None))
    }

    /** _get_current_log_version: a single-row query whose value may be NULL. */
    function GetCurrentLogVersion(db: Source): (r: Run<Option<int>>)
      ensures r.queries == [CurrentVersionQuery] && r.outcome == Ok(db.currentVersion)
    {
      Run([CurrentVersionQuery], Ok(db.currentVersion))
    }

    /** The three checks of assert_log_based_is_enabled, in order, each stopping the rest
        when it raises; yields the minimum valid version. */
    function EnablementChecks(db: Source): (r: Run<Option<int>>)
      ensures |r.queries| >= 1 && r.queries <= GateQueries(db)
      ensures !DatabaseListedFirst(db) ==> |r.queries| == 1 && r.outcome.Err?
      ensures DatabaseListedFirst(db) && !TableListed(db) ==> |r.queries| == 2 && r.outcome == Err(TableNotTracked)
      ensures DatabaseListedFirst(db) && TableListed(db) && !ObjectResolves(db) ==>
        |r.queries| == 3 && r.outcome == Err(ObjectIdNull)
      ensures DatabaseListedFirst(db) && TableListed(db) && ObjectResolves(db) ==>
        r.queries == GateQueries(db) && r.outcome == Ok(MinValid(db))
    {
      var database := GetChangeTrackingDatabase(db);
      if database.outcome.Err? then Run(database.queries, Err(database.outcome.error))
      else
        var table := GetChangeTrackingTables(db);
        if table.outcome.Err? then Run(database.queries + table.queries, Err(table.outcome.error))
        else
          var minValid := GetMinValidVersion(db);
          Run(database.queries + table.queries + minValid.queries, minValid.outcome)
    }

    /** assert_log_based_is_enabled as written. The test `a & b & mvv is not None` parses as
        `(a & b & mvv) is not None`: `a & b` is True (each check raised otherwise), `True & mvv`
        raises a TypeError when mvv is None and is an int (not None) otherwise, so the method
        either raises or returns True; the `return False` branch is unreachable. */
    function AssertLogBasedIsEnabled(db: Source): (r: Run<bool>)
      ensures r.outcome != Ok(false)
      ensures r.queries == EnablementChecks(db).queries
      ensures r.outcome == Ok(true) <==>
        DatabaseListedFirst(db) && TableListed(db) && ObjectResolves(db) && MinValid(db).Some?
      ensures DatabaseListedFirst(db) && TableListed(db) && ObjectResolves(db) && MinValid(db).None? ==>
        r.outcome == Err(UnsupportedOperand)
    {
      var checks := EnablementChecks(db);
      if checks.outcome.Err? then Run(checks.queries, Err(checks.outcome.error))
      else if checks.outcome.value.None? then Run(checks.queries, Err(UnsupportedOperand))
      else Run(checks.queries, Ok(true))
    }

    /** assert_log_based_is_enabled as its final test evidently means it,
        `a & b & (mvv is not None)`: a NULL minimum valid version gives False. */
    function AssertLogBasedIsEnabledIntended(db: Source): (r: Run<bool>)
      ensures r.queries == EnablementChecks(db).queries
      ensures r.outcome == Ok(true) <==>
        DatabaseListedFirst(db) && TableListed(db) && ObjectResolves(db) && MinValid(db).Some?
      ensures r.outcome == Ok(false) <==>
        DatabaseListedFirst(db) && TableListed(db) && ObjectResolves(db) && MinValid(db).None?
      ensures r.outcome.Err? <==> !(DatabaseListedFirst(db) && TableListed(db) && ObjectResolves(db))
    {
      var checks := EnablementChecks(db);
      if checks.outcome.Err? then Run(checks.queries, Err(checks.outcome.error))
      else Run(checks.queries, Ok(checks.outcome.value.Some?))
    }

    /** The two readings differ on exactly one kind of input: every check passes but the
        minimum valid version is NULL. There the code raises where False was meant. */
    lemma MinValidNullRaises(db: Source)
      ensures AssertLogBasedIsEnabled(db) != AssertLogBasedIsEnabledIntended(db) <==>
        DatabaseListedFirst(db) && TableListed(db) && ObjectResolves(db) && MinValid(db).None?
      ensures AssertLogBasedIsEnabledIntended(db).outcome == Ok(false) ==>
        AssertLogBasedIsEnabled(db).outcome == Err(UnsupportedOperand)
    {
    }

    /** Such an input exists for every configuration, with or without a database. */
    lemma MinValidNullExample()
      ensures exists db: Source ::
        AssertLogBasedIsEnabled(db).outcome == Err(UnsupportedOperand)
        && AssertLogBasedIsEnabledIntended(db).outcome == Ok(false)
    {
      var db := Source([databaseName], [(schemaName, tableName)], map[ObjectName() := 0], map[], Some(1));
      assert DatabaseListedFirst(db) && TableListed(db) && ObjectResolves(db) && MinValid(db).None?;
      assert AssertLogBasedIsEnabled(db).outcome == Err(UnsupportedOperand);
      assert AssertLogBasedIsEnabledIntended(db).outcome == Ok(false);
    }

    /** log_based_init_state: the flag is read; when it reads as None the current log version
        is fetched (and dropped) and the flag is written as False. Returns the queries sent. */
    method LogBasedInitState(db: Source) returns (issued: seq<Query>)
      modifies state
      ensures state.bookmarks == InitialState(old(state.bookmarks), streamId)
      ensures issued == if Lookup(old(state.bookmarks), streamId, INITIAL_FULL_TABLE_COMPLETE) == Null
                        then [CurrentVersionQuery] else []
    {
      issued := [];
      var initialFullTableComplete := Lookup(state.bookmarks, streamId, INITIAL_FULL_TABLE_COMPLETE);
      if initialFullTableComplete == Null {
        var currentLogVersion := GetCurrentLogVersion(db);
        issued := currentLogVersion.queries;
        state.WriteBookmark(streamId, INITIAL_FULL_TABLE_COMPLETE, Bool(false));
      }
    }

    /** log_based_initial_full_table: reads the flag, fetches the current log version, then
        the minimum valid version (raising when the object id is NULL), and decides. */
    function LogBasedInitialFullTable(db: Source): (r: Run<bool>)
      reads state
      ensures r.queries == [CurrentVersionQuery] + GetMinValidVersion(db).queries
      ensures !ObjectResolves(db) ==> r.outcome == Err(ObjectIdNull)
      ensures ObjectResolves(db) ==>
        r.outcome == FullTableDecision(Lookup(state.bookmarks, streamId, INITIAL_FULL_TABLE_COMPLETE),
                                       db.currentVersion, MinValid(db))
      ensures r.outcome == Ok(false) ==>
        IsTrue(Lookup(state.bookmarks, streamId, INITIAL_FULL_TABLE_COMPLETE))
    {
      var flag := Lookup(state.bookmarks, streamId, INITIAL_FULL_TABLE_COMPLETE);
      var current := GetCurrentLogVersion(db);
      var minValid := GetMinValidVersion(db);
      if minValid.outcome.Err? then Run(current.queries + minValid.queries, Err(minValid.outcome.error))
      else Run(current.queries + minValid.queries, FullTableDecision(flag, current.outcome.value, minValid.outcome.value))
    }
  }
}
