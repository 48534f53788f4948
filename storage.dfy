/**
 * The browser's `localStorage`, seen through `JSON.parse`: a map from key to
 * an already-parsed value. Only the keys this client writes are given a
 * shape; any other key holds some text the client never reads.
 */
module Storage {
  import opened Records

  const SessionsKey: string := "query-sessions"
  const CurrentSessionKey: string := "current-session"
  const UserKey: string := "user"

  datatype Value =
    | SessionList(sessions: seq<Session>)
    | SessionRecord(session: Session)
    | UserRecord(user: AuthUser)
    | Text(text: string)

  /** The shape every writer of `key` gives its value. */
  predicate Fits(key: string, v: Value) {
    && (key == SessionsKey ==> v.SessionList?)
    && (key == CurrentSessionKey ==> v.SessionRecord?)
    && (key == UserKey ==> v.UserRecord?)
  }

  class LocalStorage {
    var entries: map<string, Value>

    /** Every key the client reads holds the shape it expects. */
    ghost predicate Valid()
      reads this
    {
      forall k :: k in entries ==> Fits(k, entries[k])
    }

    constructor (initial: map<string, Value>)
      ensures entries == initial
    {
      entries := initial;
    }

    /** `getItem(key)`, `None` standing for `null`. */
    function GetItem(key: string): (r: Option<Value>)
      reads this
      ensures r.Some? <==> key in entries
      ensures r.Some? ==> r.value == entries[key]
    {
      if key in entries then Some(entries[key]) else None
    }

    /** `setItem(key, JSON.stringify(v))`. */
    method SetItem(key: string, v: Value)
      requires Fits(key, v)
      modifies this
      ensures entries == old(entries)[key := v]
      ensures old(Valid()) ==> Valid()
    {
      entries := entries[key := v];
    }

    /** `removeItem(key)`. */
    method RemoveItem(key: string)
      modifies this
      ensures entries == old(entries) - {key}
      ensures old(Valid()) ==> Valid()
    {
      entries := entries - {key};
    }
  }
}
