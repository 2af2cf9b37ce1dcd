# tap-mssql sync strategies: bookmark reconciliation and the change-tracking gate

A Dafny model of the two decision cores of the tap's sync strategies.

- **Incremental sync** (`sync_table`). It whitelists a stream's bookmarks to
  `replication_key`, `replication_key_value` and `version`. It then compares the configured
  `replication-key` with the bookmarked one. If they match, the scan resumes from the
  bookmarked value. If not, the new key is recorded and the old value is cleared. Next the
  stream version is written, and only then is the ActivateVersion message emitted. Last, it
  builds the text appended to the base SELECT and its parameters:
  `WHERE "k" >= ? ORDER BY "k" ASC` with the resume value bound,
  `ORDER BY "k" ASC` with nothing bound, or nothing at all. A date-time key's bookmarked
  value is parsed before it is bound.
- **Log-based sync** (class `log_based_sync`). The enablement gate checks that change
  tracking is on for the database, then for the table. It then resolves the table's object
  id and reads its minimum valid version. Any failing check stops the later queries. The init
  step seeds `initial_full_table_complete = False` when that bookmark reads as None. The
  full-load decision skips the initial load only when that flag is True and the minimum
  valid version is below the current change-tracking version.

The singer state is a map from stream id to that stream's bookmarks (`Singer.StateMap`).
`get_bookmark`, `write_bookmark`, `clear_bookmark` and `whitelist_bookmark_keys` are
functions on that map. `Singer.SingerState` is the state dictionary the strategies
mutate in place, and each of its methods is specified by one of those functions. Query
answers are inputs: a `Logical.Source` value says what the server returns to each metadata
query. Each log-based check returns the queries it sent, in order, along with its outcome.
Every exception the code raises is an `Err`.

The model keeps these behaviours of the code, which are easy to misread:

- The database check compares only the first row of `sys.change_tracking_databases` with
  the configured database. It does not test set membership. A NULL first row matches a
  configuration without a database. `DatabaseCheckReadsFirstRowOnly`
  shows the gap.
- The full-load decision compares the minimum valid version with the server's current
  version. It does not compare it with a bookmarked `current_log_version`.
- The init step fetches the current version but never stores it.
- The gate never returns False (see Findings).

## Model

| member | source | states |
|---|---|---|
| `Singer.Written` | tap_mssql/sync_strategies/incremental.py:37-42 | write_bookmark stores the value under the key (a None too), creates the stream's entry, keeps the stream's other keys and values, and leaves every other stream as it was |
| `Singer.Cleared` | tap_mssql/sync_strategies/incremental.py:43-45 | clear_bookmark removes exactly that key of that stream, which then reads as None; the other keys and streams are untouched |
| `Singer.Whitelisted` | tap_mssql/sync_strategies/incremental.py:20 | the stream keeps exactly its keys that are in the allowed set, with their values; every key outside it reads as None; other streams are untouched and no stream entry is created |
| `Singer.WhitelistIdempotent` | tap_mssql/sync_strategies/incremental.py:20 | whitelisting again with the same keys changes nothing |
| `Singer.SingerState.WriteBookmark` | tap_mssql/sync_strategies/incremental.py:48-50 | updates the shared state in place: the new bookmarks are those `Written` gives for the old ones |
| `Singer.SingerState.ClearBookmark` | tap_mssql/sync_strategies/incremental.py:43-45 | updates the shared state in place, as `Cleared` gives it |
| `Singer.SingerState.WhitelistBookmarkKeys` | tap_mssql/sync_strategies/incremental.py:20 | updates the shared state in place, as `Whitelisted` gives it |
| `Singer.Lookup` | tap_mssql/sync_strategies/incremental.py:26-28 | get_bookmark returns the stored value when the stream holds the key, and None when the stream or the key is absent |
| `Singer.MessageWriter.WriteMessage` | tap_mssql/sync_strategies/incremental.py:58 | write_message appends exactly one message to the output, and records the bookmarks the shared state holds at that moment |
| `Incremental.Reconcile` | tap_mssql/sync_strategies/incremental.py:20-45 | if the configured key equals the bookmarked replication_key, the resume value is the bookmarked replication_key_value and neither bookmark changes; otherwise replication_key becomes the configured key, replication_key_value is gone, and there is no resume value; only this stream changes, it keeps only the three incremental keys, and its version is unchanged |
| `Incremental.PreScanState` | tap_mssql/sync_strategies/incremental.py:20-50 | the state before the scan: version bookmark equals the stream version, replication_key is the configured key, replication_key_value is kept when the key matched the bookmarked one and absent after a key change, the stream holds only incremental keys, and other streams are untouched |
| `Incremental.BoundValue` | tap_mssql/sync_strategies/incremental.py:65-69 | the resume value is parsed with `parse` when the key's schema format is date-time, and bound unchanged otherwise |
| `Incremental.Select` | tap_mssql/sync_strategies/incremental.py:60-77 | with a resume value the SQL is base + ` WHERE "k" >= ? ORDER BY "k" ASC` and params is exactly {replication_key_value: v}, where v is parsed only for a date-time key; it fails when the key is not a schema property or the parse fails; with no resume value it is base + ` ORDER BY "k" ASC` (a key is configured) or base unchanged (none), with empty params |
| `Incremental.SyncTable` | tap_mssql/sync_strategies/incremental.py:19-81 | performs the steps in place on the shared state: the final bookmarks are `PreScanState` of the old ones; exactly one ActivateVersion(stream, version) message is written, and at that moment the shared state already holds every pre-scan bookmark (`PreScanState`, the version included); the statement returned is `Select` of the reconciled resume value |
| `Incremental.PlaceholdersAppend` | tap_mssql/sync_strategies/incremental.py:71-73 | placeholders of a concatenation add up |
| `Incremental.SelectBindsEveryPlaceholder` | tap_mssql/sync_strategies/incremental.py:71-75 | the appended clause adds one `?` placeholder per bound parameter: one with a resume value, none otherwise |
| `Incremental.ResumeFromBookmark` | tap_mssql/sync_strategies/incremental.py:32-75 | same key bookmarked and a value present: the scan is bounded below by exactly the bookmarked value (parsed for a date-time key), ascending by the key, with that one parameter |
| `Incremental.KeyChangeScansFromStart` | tap_mssql/sync_strategies/incremental.py:36-77 | a changed or first-time key discards the old watermark whatever it held: an unbounded scan ascending by the new key, nothing bound |
| `Incremental.PreScanStable` | tap_mssql/sync_strategies/incremental.py:20-50 | repeating the pre-scan steps with the same key and version leaves the state unchanged and resumes from the value left bookmarked |
| `Logical.InitialState` | tap_mssql/sync_strategies/logical.py:150-161 | initial_full_table_complete is written as False if and only if it read as None, otherwise the state is unchanged; no other bookmark (current_log_version included) and no other stream changes, and no stream other than this one is added |
| `Logical.InitialStateIdempotent` | tap_mssql/sync_strategies/logical.py:150-161 | a second init leaves the state as the first left it |
| `Logical.FullTableDecision` | tap_mssql/sync_strategies/logical.py:184-190 | returns False exactly when the flag equals True and min_valid_version < current_log_version, True otherwise; a None version raises |
| `Logical.FreshStreamLoadsFullTable` | tap_mssql/sync_strategies/logical.py:154-190 | a stream that init has just seeded always gets the initial full load (or fails), never skips it |
| `Logical.ModeSwitchPurges` | tap_mssql/sync_strategies/logical.py:16-20 | with the log-based keys current_log_version, last_pk_fetched and initial_full_table_complete, whitelisting a stream to either mode removes every key of the other mode |
| `Logical.LogBasedSync.constructor` | tap_mssql/sync_strategies/logical.py:32-43 | the strategy keeps the stream id, schema, table and state; the database name is config["database"], or None when it is not configured |
| `Logical.LogBasedSync.GetChangeTrackingDatabase` | tap_mssql/sync_strategies/logical.py:61-81 | one query; succeeds (True) exactly when the first returned row equals the configured database, where a NULL row equals an unconfigured one; no row, or another value, fails |
| `Logical.LogBasedSync.DatabaseCheckSound` | tap_mssql/sync_strategies/logical.py:74-75 | a passing database check implies change tracking is enabled for the configured database |
| `Logical.LogBasedSync.DatabaseCheckReadsFirstRowOnly` | tap_mssql/sync_strategies/logical.py:72-79 | the converse fails: an enabled database listed after another one fails the check |
| `Logical.LogBasedSync.GetChangeTrackingTables` | tap_mssql/sync_strategies/logical.py:83-107 | one query; succeeds (True) if and only if the (schema, table) pair is among the returned rows, fails otherwise |
| `Logical.LogBasedSync.GetCurrentLogVersion` | tap_mssql/sync_strategies/logical.py:166-173 | sends exactly the CHANGE_TRACKING_CURRENT_VERSION query and returns its answer, NULL included |
| `Logical.LogBasedSync.GetObjectVersionByTableName` | tap_mssql/sync_strategies/logical.py:124-144 | asks OBJECT_ID of schema + "." + table and returns that id; fails when it is NULL |
| `Logical.LogBasedSync.GetMinValidVersion` | tap_mssql/sync_strategies/logical.py:109-122 | the min-valid-version query is sent only after the object id resolved, for that id; its answer, possibly NULL, is returned; an unresolved id fails after one query |
| `Logical.LogBasedSync.EnablementChecks` | tap_mssql/sync_strategies/logical.py:47-49 | the queries are a prefix of database, table, object id, min valid version, cut right after the first failing check, whose error is the outcome |
| `Logical.LogBasedSync.AssertLogBasedIsEnabled` | tap_mssql/sync_strategies/logical.py:45-59 | never returns False; returns True exactly when all checks pass and the min valid version is not NULL; a NULL one raises (TypeError); queries as in `EnablementChecks` |
| `Logical.LogBasedSync.AssertLogBasedIsEnabledIntended` | tap_mssql/sync_strategies/logical.py:51-55 | the intended reading: True when every check passes with a min valid version, False when it is NULL, failure exactly when an earlier check raises |
| `Logical.LogBasedSync.MinValidNullRaises` | tap_mssql/sync_strategies/logical.py:51-59 | the written and the intended gate differ exactly when every check passes but the min valid version is NULL; there the code raises where False was meant |
| `Logical.LogBasedSync.MinValidNullExample` | tap_mssql/sync_strategies/logical.py:51-59 | such an input exists for every configuration, with or without a database |
| `Logical.LogBasedSync.LogBasedInitState` | tap_mssql/sync_strategies/logical.py:146-161 | mutates the shared state as `InitialState` gives it; the current-version query is sent only when the flag read as None, and its answer is not stored |
| `Logical.LogBasedSync.LogBasedInitialFullTable` | tap_mssql/sync_strategies/logical.py:175-190 | sends the current-version query, then the object-id and min-valid-version queries; fails when the id is NULL; otherwise decides as `FullTableDecision` on the bookmarked flag; False only with the flag True |

## Left out

- Connections, `execute`, `fetchone`, `fetchall`, `connect_with_backoff` and the Azure engine are I/O. A `Logical.Source` value stands for their answers, and it answers the same way every time it is asked.
- Logging is left out. The only output modelled is the list of messages `write_message` receives.
- `common.whitelist_bookmark_keys` is not part of this model. Only its effect is modelled: it removes the stream's keys outside the allowed set (`Singer.Whitelisted`).
- `common.get_stream_version` is not part of this model. The stream version is a parameter of `SyncTable`.
- `common.generate_select_sql` is not part of this model. The base SELECT is a parameter.
- `common.set_schema_mapping` is not part of this model. The output stream name is a parameter.
- `common.get_database_name` is not part of this model. The schema name is a constructor parameter.
- `common.sync_query` is not part of this model. So neither the row scan nor the advance of `replication_key_value` after it is modelled.
- `pendulum.parse` is a foreign library. It is a parameter `parse` of type `Value -> Option<Value>`, where `None` means it raised.
- Exception messages are left out. So is the fact that `Exception(...).format(...)` raises an AttributeError before any message is seen. Every raise is one `Err` value per cause.
- The stub `log_based_sync` method (logical.py:195-197) is left out. It only returns True.
- The unreachable `return True` at logical.py:193 is left out.
- The commented-out `sync_table` at logical.py:213-217 is left out.
- `_get_single_result` is folded into `GetCurrentLogVersion`.
- Bookmark values cover None, booleans, integers, strings and parsed date-times. Floats are not modelled, so Python's `1.0 == True` is not either. `1 == True` is modelled (`Logical.IsTrue`).

## Findings

| source | as written | input that shows it | evidently intended | confidence | as-written member | corrected member |
|---|---|---|---|---|---|---|
| tap_mssql/sync_strategies/logical.py:51-59 | `a & b & mvv is not None` parses as `(a & b & mvv) is not None`, so `True & None` raises a TypeError and the `return False` branch is unreachable | database and table tracked, object id resolves, `CHANGE_TRACKING_MIN_VALID_VERSION` returns NULL | `a & b & (mvv is not None)`: return False for a NULL minimum valid version | not executed; high (Python operator precedence) | `Logical.LogBasedSync.AssertLogBasedIsEnabled`, `Logical.LogBasedSync.MinValidNullExample` | `Logical.LogBasedSync.AssertLogBasedIsEnabledIntended` |
