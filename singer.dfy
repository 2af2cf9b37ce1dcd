/**
  The part of the singer library that the sync strategies lean on: bookmark values, the
  per-stream bookmark map `state["bookmarks"]`, the get / write / clear accessors, key
  whitelisting, and the message stream that ActivateVersion messages go to.

  The accessors are given first as functions on map values; `SingerState` is the state
  dictionary that the strategies mutate in place, and its methods are specified by those
  functions.
*/
module Singer {

  /** A bookmark value as it appears in the JSON state. `Null` is Python's None and
      `Timestamp` stands for a parsed date-time (an opaque, ordered instant). */
  datatype Value = Null | Bool(b: bool) | Int(i: int) | Str(s: string) | Timestamp(instant: int)

  /** One stream's bookmarks: key -> value. */
  type Bookmarks = map<string, Value>

  /** `state["bookmarks"]`: stream id -> that stream's bookmarks. */
  type StateMap = map<string, Bookmarks>

  function StreamBookmarks(st: StateMap, id: string): Bookmarks {
    if id in st then st[id] else map[]
  }

  /** `get_bookmark`: an absent stream or an absent key reads as None, exactly like a stored None. */
  function Lookup(st: StateMap, id: string, key: string): (v: Value)
    ensures id in st && key in st[id] ==> v == st[id][key]
    ensures !(id in st && key in st[id]) ==> v == Null
  {
    var b := StreamBookmarks(st, id);
    if key in b then b[key] else Null
  }

  /** `write_bookmark`: creates the stream's entry when needed and inserts or overwrites `key`.
      A None value is stored, not dropped. */
  function Written(st: StateMap, id: string, key: string, v: Value): (r: StateMap)
    ensures r.Keys == st.Keys + {id}
    ensures r[id].Keys == StreamBookmarks(st, id).Keys + {key}
    ensures r[id][key] == v && Lookup(r, id, key) == v
    ensures forall k :: k in r[id] && k != key ==> r[id][k] == StreamBookmarks(st, id)[k]
    ensures forall s :: s in st && s != id ==> r[s] == st[s]
  {
    st[id := StreamBookmarks(st, id)[key := v]]
  }

  /** `clear_bookmark`: creates the stream's entry when needed and removes `key` if present. */
  function Cleared(st: StateMap, id: string, key: string): (r: StateMap)
    ensures r.Keys == st.Keys + {id}
    ensures r[id].Keys == StreamBookmarks(st, id).Keys - {key}
    ensures Lookup(r, id, key) == Null
    ensures forall k :: k in r[id] ==> r[id][k] == StreamBookmarks(st, id)[k]
    ensures forall s :: s in st && s != id ==> r[s] == st[s]
  {
    st[id := StreamBookmarks(st, id) - {key}]
  }

  /** `whitelist_bookmark_keys`: drops every bookmark of stream `id` whose key is not in
      `keys`; other streams, and the values of the kept keys, are left as they were. */
  function Whitelisted(st: StateMap, keys: set<string>, id: string): (r: StateMap)
    ensures r.Keys == st.Keys
    ensures StreamBookmarks(r, id).Keys == StreamBookmarks(st, id).Keys * keys
    ensures forall k :: k in StreamBookmarks(r, id) ==> StreamBookmarks(r, id)[k] == StreamBookmarks(st, id)[k]
    ensures forall k :: Lookup(r, id, k) == if k in keys then Lookup(st, id, k) else Null
    ensures forall s :: s in st && s != id ==> r[s] == st[s]
  {
    if id in st then st[id := map k | k in st[id] && k in keys :: st[id][k]] else st
  }

  /** Whitelisting twice with the same keys is the same as whitelisting once. */
  lemma WhitelistIdempotent(st: StateMap, keys: set<string>, id: string)
    ensures Whitelisted(Whitelisted(st, keys, id), keys, id) == Whitelisted(st, keys, id)
  {
    var once := Whitelisted(st, keys, id);
    var twice := Whitelisted(once, keys, id);
    if id in st {
      assert StreamBookmarks(twice, id) == StreamBookmarks(once, id);
    }
  }

  /** The mutable singer state dictionary, shared by reference with the strategies. */
  class SingerState {
    var bookmarks: StateMap

    method WriteBookmark(id: string, key: string, v: Value)
      modifies this
      ensures bookmarks == Written(old(bookmarks), id, key, v)
    {
      bookmarks := Written(bookmarks, id, key, v);
    }

    method ClearBookmark(id: string, key: string)
      modifies this
      ensures bookmarks == Cleared(old(bookmarks), id, key)
    {
      bookmarks := Cleared(bookmarks, id, key);
    }

    method WhitelistBookmarkKeys(keys: set<string>, id: string)
      modifies this
      ensures bookmarks == Whitelisted(old(bookmarks), keys, id)
    {
      bookmarks := Whitelisted(bookmarks, keys, id);
    }
  }

  /** The singer messages this core emits. */
  datatype Message = ActivateVersion(stream: string, version: int)

  /** The output stream of `write_message`, as the sequence of messages written so far,
      with the bookmarks the shared state held at the moment each one was written. */
  class MessageWriter {
    var messages: seq<Message>
    ghost var statesAtWrite: seq<StateMap>

    method WriteMessage(m: Message, ghost st: SingerState)
      modifies this
      ensures messages == old(messages) + [m]
      ensures statesAtWrite == old(statesAtWrite) + [st.bookmarks]
    {
      messages := messages + [m];
      statesAtWrite := statesAtWrite + [st.bookmarks];
    }
  }
}
