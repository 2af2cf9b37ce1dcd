/**
  Incremental (replication-key) sync of one table stream: whitelisting the stream's
  bookmarks, reconciling the configured replication key with the bookmarked one, writing
  the stream version before the ActivateVersion message, and building the text appended to
  the base SELECT together with its bound parameters.

  The base SELECT, the stream version and the date-time parser are inputs; the row scan
  that runs the query and advances `replication_key_value` lies outside this model.
*/
module Incremental {
  import opened Wrappers
  import opened Singer

  /** The bookmark keys incremental mode keeps for a stream. */
  const BOOKMARK_KEYS: set<string> := {"replication_key", "replication_key_value", "version"}

  /** The catalog facts sync_table reads: the stream id, the `replication-key` metadata of
      the stream, and each schema property's declared `format` (None when it has none). */
  datatype CatalogEntry = CatalogEntry(
    tapStreamId: string,
    replicationKey: Option<string>,
    formats: map<string, Option<string>>)

  /** Raised while building the query: the key is not a schema property (a KeyError), or the
      bookmarked value does not parse as a date-time. */
  datatype Failure = MissingProperty | DateTimeParseError

  /** The state after key reconciliation and the value the scan resumes from (Null: none). */
  datatype Reconciliation = Reconciliation(state: StateMap, resume: Value)

  /** The statement handed to the row scan: its text and its named parameters. */
  datatype SelectQuery = SelectQuery(sql: string, params: map<string, Value>)

  /** The configured key as the bookmark value it is compared with and stored as. */
  function KeyValue(key: Option<string>): Value {
    if key.Some? then Str(key.value) else Null
  }

  /** Whitelisting, then either reusing the bookmarked value (same key) or recording the
      configured key and dropping the old value (changed key, or first run). */
  function Reconcile(st: StateMap, id: string, key: Option<string>): (r: Reconciliation)
    ensures forall s :: s in st && s != id ==> s in r.state && r.state[s] == st[s]
    ensures forall s :: s in r.state ==> s in st || s == id
    ensures StreamBookmarks(r.state, id).Keys <= BOOKMARK_KEYS
    ensures Lookup(r.state, id, "version") == Lookup(st, id, "version")
    ensures KeyValue(key) == Lookup(st, id, "replication_key") ==>
      && r.resume == Lookup(st, id, "replication_key_value")
      && Lookup(r.state, id, "replication_key") == Lookup(st, id, "replication_key")
      && Lookup(r.state, id, "replication_key_value") == Lookup(st, id, "replication_key_value")
    ensures KeyValue(key) != Lookup(st, id, "replication_key") ==>
      && r.resume == Null
      && "replication_key" in StreamBookmarks(r.state, id)
      && Lookup(r.state, id, "replication_key") == KeyValue(key)
      && "replication_key_value" !in StreamBookmarks(r.state, id)
  {
    var w := Whitelisted(st, BOOKMARK_KEYS, id);
    if KeyValue(key) == Lookup(w, id, "replication_key") then
      Reconciliation(w, Lookup(w, id, "replication_key_value"))
    else
      Reconciliation(Cleared(Written(w, id, "replication_key", KeyValue(key)), id, "replication_key_value"), Null)
  }

  /** The bookmarks sync_table leaves behind before the scan: the reconciled state with the
      stream version written. */
  function PreScanState(st: StateMap, id: string, key: Option<string>, version: int): (r: StateMap)
    ensures forall s :: s in st && s != id ==> s in r && r[s] == st[s]
    ensures forall s :: s in r ==> s in st || s == id
    ensures id in r && r[id].Keys <= BOOKMARK_KEYS
    ensures Lookup(r, id, "version") == Int(version)
    ensures Lookup(r, id, "replication_key") == KeyValue(key)
    ensures KeyValue(key) == Lookup(st, id, "replication_key") ==>
      Lookup(r, id, "replication_key_value") == Lookup(st, id, "replication_key_value")
    ensures KeyValue(key) != Lookup(st, id, "replication_key") ==>
      "replication_key" in r[id] && "replication_key_value" !in r[id]
  {
    Written(Reconcile(st, id, key).state, id, "version", Int(version))
  }

  /** `"k"`: a column name quoted as an identifier. */
  function Quoted(k: string): string {
    "\"" + k + "\""
  }

  function OrderClause(k: string): string {
    " ORDER BY " + Quoted(k) + " ASC"
  }

  function WhereClause(k: string): string {
    " WHERE " + Quoted(k) + " >= ?" + OrderClause(k)
  }

  /** The value bound to the placeholder: parsed when the key's format is date-time. */
  function BoundValue(resume: Value, format: Option<string>, parse: Value -> Option<Value>): (r: Option<Value>)
    ensures format == Some("date-time") ==> r == parse(resume)
    ensures format != Some("date-time") ==> r == Some(resume)
  {
    if format == Some("date-time") then parse(resume) else Some(resume)
  }

  /** The text appended to the base SELECT and its parameters, for a given resume value. */
  function Select(
    base: string, key: Option<string>, resume: Value,
    formats: map<string, Option<string>>, parse: Value -> Option<Value>): (r: Result<SelectQuery, Failure>)
    ensures resume == Null && key.Some? ==> r == Ok(SelectQuery(base + OrderClause(key.value), map[]))
    ensures resume == Null && key.None? ==> r == Ok(SelectQuery(base, map[]))
    ensures resume != Null ==>
      (r.Err? <==> key.None? || key.value !in formats
                   || (formats[key.value] == Some("date-time") && parse(resume).None?))
    ensures resume != Null && r.Ok? ==>
      && key.Some? && key.value in formats
      && r.value.sql == base + WhereClause(key.value)
      && r.value.params.Keys == {"replication_key_value"}
      && r.value.params["replication_key_value"] ==
           (if formats[key.value] == Some("date-time") then parse(resume).value else resume)
  {
    if resume != Null then
      if key.None? || key.value !in formats then Err(MissingProperty)
      else
        var v := BoundValue(resume, formats[key.value], parse);
        if v.None? then Err(DateTimeParseError)
        else Ok(SelectQuery(base + WhereClause(key.value), map["replication_key_value" := v.value]))
    else if key.Some? then Ok(SelectQuery(base + OrderClause(key.value), map[]))
    else Ok(SelectQuery(base, map[]))
  }

  /** sync_table up to the hand-off to the row scan. The state is updated in place, the
      ActivateVersion message is written once the version bookmark is in the state, and the
      statement for the scan is returned (or the error raised while building it). */
  method SyncTable(
    state: SingerState, out: MessageWriter, entry: CatalogEntry,
    tableStream: string, streamVersion: int, baseSql: string, parse: Value -> Option<Value>)
    returns (r: Result<SelectQuery, Failure>)
    modifies state, out
    ensures state.bookmarks == PreScanState(old(state.bookmarks), entry.tapStreamId, entry.replicationKey, streamVersion)
    ensures out.messages == old(out.messages) + [ActivateVersion(tableStream, streamVersion)]
    // the message is written when the state already holds every pre-scan bookmark, version included
    ensures out.statesAtWrite == old(out.statesAtWrite)
      + [PreScanState(old(state.bookmarks), entry.tapStreamId, entry.replicationKey, streamVersion)]
    ensures r == Select(baseSql, entry.replicationKey,
                        Reconcile(old(state.bookmarks), entry.tapStreamId, entry.replicationKey).resume,
                        entry.formats, parse)
  {
    var id := entry.tapStreamId;
    var key := entry.replicationKey;
    state.WhitelistBookmarkKeys(BOOKMARK_KEYS, id);
    var keyState := Lookup(state.bookmarks, id, "replication_key");
    var resume := Null;
    if KeyValue(key) == keyState {
      resume := Lookup(state.bookmarks, id, "replication_key_value");
    } else {
      state.WriteBookmark(id, "replication_key", KeyValue(key));
      state.ClearBookmark(id, "replication_key_value");
    }
    state.WriteBookmark(id, "version", Int(streamVersion));
    out.WriteMessage(ActivateVersion(tableStream, streamVersion), state);

    var sql := baseSql;
    var params: map<string, Value> := map[];
    if resume != Null {
      if key.None? || key.value !in entry.formats {
        r := Err(MissingProperty);
        return;
      }
      var bound := resume;
      if entry.formats[key.value] == Some("date-time") {
        var parsed := parse(resume);
        if parsed.None? {
          r := Err(DateTimeParseError);
          return;
        }
        bound := parsed.value;
      }
      sql := sql + WhereClause(key.value);
      params := params["replication_key_value" := bound];
    } else if key.Some? {
      sql := sql + OrderClause(key.value);
    }
    r := Ok(SelectQuery(sql, params));
  }

  /** The number of `?` placeholders in a statement. */
  function Placeholders(s: string): nat {
    if s == [] then 0 else (if s[0] == '?' then 1 else 0) + Placeholders(s[1..])
  }

  lemma {:induction false} PlaceholdersAppend(a: string, b: string)
    ensures Placeholders(a + b) == Placeholders(a) + Placeholders(b)
  {
    if a != [] {
      assert (a + b)[1..] == a[1..] + b;
      PlaceholdersAppend(a[1..], b);
    } else {
      assert a + b == b;
    }
  }

  lemma {:induction false} NoPlaceholders(s: string)
    requires '?' !in s
    ensures Placeholders(s) == 0
  {
    if s != [] {
      assert s[0] != '?';
      NoPlaceholders(s[1..]);
    }
  }

  lemma OrderClausePlaceholders(k: string)
    requires '?' !in k
    ensures Placeholders(OrderClause(k)) == 0
  {
    assert '?' !in OrderClause(k);
    NoPlaceholders(OrderClause(k));
  }

  lemma WhereClausePlaceholders(k: string)
    requires '?' !in k
    ensures Placeholders(WhereClause(k)) == 1
  {
    var head := " WHERE " + Quoted(k) + " >= ";
    assert WhereClause(k) == head + "?" + OrderClause(k);
    assert '?' !in head;
    NoPlaceholders(head);
    assert Placeholders("?") == 1;
    PlaceholdersAppend(head, "?");
    OrderClausePlaceholders(k);
    PlaceholdersAppend(head + "?", OrderClause(k));
  }

  /** The clause sync_table appends never needs a value that is not bound: the statement
      gains exactly one placeholder per parameter (for a key name without `?`). */
  lemma SelectBindsEveryPlaceholder(
    base: string, key: Option<string>, resume: Value,
    formats: map<string, Option<string>>, parse: Value -> Option<Value>)
    requires key.Some? ==> '?' !in key.value
    ensures var r := Select(base, key, resume, formats, parse);
      r.Ok? ==> Placeholders(r.value.sql) == Placeholders(base) + |r.value.params|
  {
    var r := Select(base, key, resume, formats, parse);
    if r.Ok? && key.Some? {
      if resume != Null {
        WhereClausePlaceholders(key.value);
        PlaceholdersAppend(base, WhereClause(key.value));
      } else {
        OrderClausePlaceholders(key.value);
        PlaceholdersAppend(base, OrderClause(key.value));
      }
    }
  }

  /** Same key bookmarked and a value present: the scan is bounded below by exactly the
      bookmarked value (parsed for a date-time key) and ordered ascending by the key. */
  lemma ResumeFromBookmark(
    st: StateMap, e: CatalogEntry, base: string, parse: Value -> Option<Value>)
    requires e.replicationKey.Some? && e.replicationKey.value in e.formats
    requires Lookup(st, e.tapStreamId, "replication_key") == Str(e.replicationKey.value)
    requires Lookup(st, e.tapStreamId, "replication_key_value") != Null
    requires e.formats[e.replicationKey.value] == Some("date-time") ==>
      parse(Lookup(st, e.tapStreamId, "replication_key_value")).Some?
    ensures var v := Lookup(st, e.tapStreamId, "replication_key_value");
      Select(base, e.replicationKey, Reconcile(st, e.tapStreamId, e.replicationKey).resume, e.formats, parse)
      == Ok(SelectQuery(base + WhereClause(e.replicationKey.value),
                        map["replication_key_value" :=
                              if e.formats[e.replicationKey.value] == Some("date-time") then parse(v).value else v]))
  {
  }

  /** A changed (or first) replication key discards the old watermark whatever it held:
      the scan is the full table, ascending by the new key, with nothing bound. */
  lemma KeyChangeScansFromStart(
    st: StateMap, e: CatalogEntry, base: string, parse: Value -> Option<Value>)
    requires e.replicationKey.Some?
    requires Lookup(st, e.tapStreamId, "replication_key") != Str(e.replicationKey.value)
    ensures Select(base, e.replicationKey, Reconcile(st, e.tapStreamId, e.replicationKey).resume, e.formats, parse)
      == Ok(SelectQuery(base + OrderClause(e.replicationKey.value), map[]))
  {
  }

  /** Running the pre-scan steps again with the same key and version changes nothing, and
      the second run resumes from whatever value the first one left bookmarked. */
  lemma PreScanStable(st: StateMap, id: string, key: Option<string>, version: int)
    ensures var once := PreScanState(st, id, key, version);
      && PreScanState(once, id, key, version) == once
      && Reconcile(once, id, key).resume == Lookup(once, id, "replication_key_value")
  {
    var once := PreScanState(st, id, key, version);
    assert Lookup(once, id, "replication_key") == KeyValue(key) || KeyValue(key) == Lookup(st, id, "replication_key");
    var w := Whitelisted(once, BOOKMARK_KEYS, id);
    assert w[id] == once[id];
    assert w == once;
    var twice := PreScanState(once, id, key, version);
    assert twice[id] == once[id];
  }
}
