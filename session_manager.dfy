/**
 * The chat session state of the query page (src/hooks/useSessionManager.ts):
 * the message list, the selected database type, the list of saved sessions
 * and the current session, written through to the browser store under
 * `query-sessions` and `current-session`.
 *
 * Each React state setter becomes an assignment to a field. The effect that
 * persists `sessions` runs after every `setSessions`; here it is the last
 * step of each method that calls that setter.
 */
module SessionManagement {
  import opened Records
  import opened Storage

  const WelcomeText: string :=
    "Hello! I can help you generate queries. " + "What would you like to know?"

  /** The one message a new page starts with. */
  function WelcomeMessage(now: Instant): (m: Message)
    ensures m.id == "1" && m.sender == System && m.timestamp == now
    ensures m.text == WelcomeText && m.query.None? && m.isExecuted.None?
  {
    Message("1", WelcomeText, System, now, None, None)
  }

  /** `prev.map(session => session.id === id ? updated : session)`. */
  function ReplaceById(list: seq<Session>, id: string, updated: Session): (r: seq<Session>)
    ensures |r| == |list|
    ensures forall i :: 0 <= i < |list| && list[i].id == id ==> r[i] == updated
    ensures forall i :: 0 <= i < |list| && list[i].id != id ==> r[i] == list[i]
    decreases |list|
  {
    if list == [] then []
    else [if list[0].id == id then updated else list[0]] + ReplaceById(list[1..], id, updated)
  }

  /** A list without the id comes back unchanged: the rewrite never
      appends. */
  lemma {:induction false} ReplaceByIdAbsent(list: seq<Session>, id: string, updated: Session)
    requires forall i :: 0 <= i < |list| ==> list[i].id != id
    ensures ReplaceById(list, id, updated) == list
    decreases |list|
  {
    if list != [] {
      ReplaceByIdAbsent(list[1..], id, updated);
    }
  }

  /** Two rewrites of the same id, the first keeping the id, leave only the
      second one's session: the last writer wins. */
  lemma {:induction false} ReplaceByIdLastWins(list: seq<Session>, id: string, first: Session, second: Session)
    requires first.id == id
    ensures ReplaceById(ReplaceById(list, id, first), id, second) == ReplaceById(list, id, second)
    decreases |list|
  {
    if list != [] {
      ReplaceByIdLastWins(list[1..], id, first, second);
      assert ReplaceById(list, id, first)[1..] == ReplaceById(list[1..], id, first);
    }
  }

  /** Rewriting twice with a session that keeps the id is rewriting once. */
  lemma ReplaceByIdIdempotent(list: seq<Session>, id: string, updated: Session)
    requires updated.id == id
    ensures ReplaceById(ReplaceById(list, id, updated), id, updated) == ReplaceById(list, id, updated)
  {
    ReplaceByIdLastWins(list, id, updated, updated);
  }

  /** The store after the persist effect: the list is written only when it
      is non-empty, and no other key is touched. */
  function PersistedSessions(entries: map<string, Value>, sessions: seq<Session>): (r: map<string, Value>)
    ensures |sessions| == 0 ==> r == entries
    ensures |sessions| > 0 ==> SessionsKey in r && r[SessionsKey] == SessionList(sessions)
    ensures forall k :: k != SessionsKey ==> (k in r <==> k in entries)
    ensures forall k :: k != SessionsKey && k in r ==> r[k] == entries[k]
  {
    if |sessions| > 0 then entries[SessionsKey := SessionList(sessions)] else entries
  }

  /** The session list the load effect finds, if the key is set. */
  function StoredSessions(entries: map<string, Value>): (r: Option<seq<Session>>)
    ensures r.Some? ==> SessionsKey in entries && entries[SessionsKey] == SessionList(r.value)
    ensures r.None? ==> SessionsKey !in entries || !entries[SessionsKey].SessionList?
  {
    if SessionsKey in entries && entries[SessionsKey].SessionList? then
      Some(entries[SessionsKey].sessions)
    else None
  }

  /** The session the load effect makes current: the stored current session,
      otherwise the last stored one; `current-session` is consulted only when
      `query-sessions` is set. */
  function AdoptedSession(entries: map<string, Value>): (r: Option<Session>)
    ensures StoredSessions(entries).None? ==> r.None?
    ensures StoredSessions(entries).Some? && CurrentSessionKey in entries && entries[CurrentSessionKey].SessionRecord?
      ==> r == Some(entries[CurrentSessionKey].session)
    ensures StoredSessions(entries).Some? && CurrentSessionKey !in entries
      ==> (r.Some? <==> |StoredSessions(entries).value| > 0)
    ensures StoredSessions(entries).Some? && CurrentSessionKey !in entries && r.Some?
      ==> r.value == StoredSessions(entries).value[|StoredSessions(entries).value| - 1]
  {
    match StoredSessions(entries)
    case None => None
    case Some(list) =>
      if CurrentSessionKey in entries && entries[CurrentSessionKey].SessionRecord? then
        Some(entries[CurrentSessionKey].session)
      else if |list| > 0 then Some(list[|list| - 1])
      else None
  }

  /** What the persist effect writes, the load effect reads back: a
      non-empty list is found again, and an empty one leaves whatever the
      store held before. */
  lemma PersistThenLoad(entries: map<string, Value>, sessions: seq<Session>)
    ensures |sessions| > 0 ==> StoredSessions(PersistedSessions(entries, sessions)) == Some(sessions)
    ensures StoredSessions(PersistedSessions(entries, [])) == StoredSessions(entries)
  {
  }

  /** The store a session mutator leaves behind (`current-session` written,
      then the list persisted) is reloaded with the same list and the same
      current session, provided the list is not empty. */
  lemma ReloadAdopts(entries: map<string, Value>, sessions: seq<Session>, current: Session)
    requires |sessions| > 0
    ensures var stored := PersistedSessions(entries[CurrentSessionKey := SessionRecord(current)], sessions);
      StoredSessions(stored) == Some(sessions) && AdoptedSession(stored) == Some(current)
  {
    PersistThenLoad(entries[CurrentSessionKey := SessionRecord(current)], sessions);
  }

  /** With an empty list, as on a first visit, the same store is reloaded
      without any session: `current-session` is written but never read,
      because `query-sessions` was never written. */
  lemma FreshChatLostOnReload(entries: map<string, Value>, current: Session)
    requires SessionsKey !in entries
    ensures var sessions := ReplaceById([], current.id, current);
      var stored := PersistedSessions(entries[CurrentSessionKey := SessionRecord(current)], sessions);
      sessions == [] && CurrentSessionKey in stored && SessionsKey !in stored && AdoptedSession(stored).None?
  {
    assert ReplaceById([], current.id, current) == [];
  }

  predicate HasId(list: seq<Session>, id: string) {
    exists i :: 0 <= i < |list| && list[i].id == id
  }

  /** The list update the session mutators evidently intend: rewrite the
      entry with the id, or append the session when there is none. */
  function UpsertById(list: seq<Session>, id: string, updated: Session): (r: seq<Session>)
    ensures HasId(list, id) ==> r == ReplaceById(list, id, updated)
    ensures !HasId(list, id) ==> r == list + [updated]
    ensures |r| > 0
    ensures updated.id == id ==> HasId(r, id)
  {
    if HasId(list, id) then ReplaceById(list, id, updated)
    else
      var r := list + [updated];
      assert r[|list|] == updated;
      r
  }

  /** With the intended update the reload round trip holds from any store,
      an empty one included: the list is never empty, so it is written, and
      the current session is read back. */
  lemma UpsertReloadRoundTrip(entries: map<string, Value>, sessions: seq<Session>, current: Session)
    ensures var list := UpsertById(sessions, current.id, current);
      var stored := PersistedSessions(entries[CurrentSessionKey := SessionRecord(current)], list);
      StoredSessions(stored) == Some(list) && AdoptedSession(stored) == Some(current)
      && HasId(list, current.id)
  {
    ReloadAdopts(entries, UpsertById(sessions, current.id, current), current);
  }

  class SessionManager {
    const store: LocalStorage
    var messages: seq<Message>
    var databaseType: DatabaseType
    var sessions: seq<Session>
    var currentSession: Session

    /** The visible messages and database type are those of the current
        session. */
    ghost predicate Valid()
      reads this
    {
      messages == currentSession.messages && databaseType == currentSession.databaseType
    }

    /** The first render: one welcome message, SQL, no saved sessions, and a
        current session `1` holding the welcome message. The welcome message
        and the session each read the clock (`now`, `created`). The persist
        effect sees an empty list and writes nothing. */
    constructor (store: LocalStorage, now: Instant, created: Instant)
      ensures this.store == store
      ensures messages == [WelcomeMessage(now)]
      ensures databaseType == Sql
      ensures sessions == []
      ensures currentSession == Session("1", "New Session", [WelcomeMessage(now)], Sql, created)
      ensures Valid()
    {
      this.store := store;
      messages := [WelcomeMessage(now)];
      databaseType := Sql;
      sessions := [];
      currentSession := Session("1", "New Session", [WelcomeMessage(now)], Sql, created);
    }

    /** The persist effect that follows a `setSessions`. */
    method PersistSessions()
      modifies store
      ensures store.entries == PersistedSessions(old(store.entries), sessions)
      ensures old(store.Valid()) ==> store.Valid()
    {
      if |sessions| > 0 {
        store.SetItem(SessionsKey, SessionList(sessions));
      }
    }

    /** The mount-time load effect. When `query-sessions` is set the list is
        adopted, and with it the session AdoptedSession picks; the persist
        effect then writes back the list it just read, so the store ends as
        it was. */
    method Mount()
      requires store.Valid()
      modifies this, store
      ensures sessions == (if StoredSessions(old(store.entries)).Some?
                           then StoredSessions(old(store.entries)).value else old(sessions))
      ensures AdoptedSession(old(store.entries)).Some? ==>
        && currentSession == AdoptedSession(old(store.entries)).value
        && messages == currentSession.messages
        && databaseType == currentSession.databaseType
      ensures AdoptedSession(old(store.entries)).None? ==>
        && currentSession == old(currentSession)
        && messages == old(messages)
        && databaseType == old(databaseType)
      ensures old(Valid()) ==> Valid()
      ensures store.entries == old(store.entries)
      ensures store.Valid()
    {
      var saved := store.GetItem(SessionsKey);
      if saved.Some? {
        var parsed := saved.value.sessions;
        sessions := parsed;
        var current := store.GetItem(CurrentSessionKey);
        if current.Some? {
          currentSession := current.value.session;
          messages := current.value.session.messages;
          databaseType := current.value.session.databaseType;
        } else if |parsed| > 0 {
          var last := parsed[|parsed| - 1];
          currentSession := last;
          messages := last.messages;
          databaseType := last.databaseType;
        }
        PersistSessions();
        assert store.entries == old(store.entries);
      }
    }

    /** `handleDatabaseTypeChange(value)`. */
    method HandleDatabaseTypeChange(value: DatabaseType)
      modifies this, store
      ensures databaseType == value
      ensures currentSession == old(currentSession).(databaseType := value)
      ensures messages == old(messages)
      ensures sessions == ReplaceById(old(sessions), old(currentSession).id, currentSession)
      ensures store.entries ==
        PersistedSessions(old(store.entries)[CurrentSessionKey := SessionRecord(currentSession)], sessions)
      ensures old(Valid()) ==> Valid()
      ensures old(store.Valid()) ==> store.Valid()
    {
      databaseType := value;
      var updated := currentSession.(databaseType := value);
      var id := currentSession.id;
      currentSession := updated;
      store.SetItem(CurrentSessionKey, SessionRecord(updated));
      sessions := ReplaceById(sessions, id, updated);
      PersistSessions();
    }

    /** The session `saveSession` writes: the current session with the
        visible messages and database type merged in. */
    function SavedSession(): (s: Session)
      reads this
      ensures s.id == currentSession.id && s.name == currentSession.name
      ensures s.dateCreated == currentSession.dateCreated
      ensures s.messages == messages && s.databaseType == databaseType
      ensures Valid() ==> s == currentSession
    {
      currentSession.(messages := messages, databaseType := databaseType)
    }

    /** `saveSession()`: rewrites the list and `current-session` with the
        merged session, but leaves `currentSession` itself alone. */
    method SaveSession()
      modifies this, store
      ensures currentSession == old(currentSession)
      ensures messages == old(messages) && databaseType == old(databaseType)
      ensures sessions == ReplaceById(old(sessions), currentSession.id, SavedSession())
      ensures store.entries ==
        PersistedSessions(old(store.entries)[CurrentSessionKey := SessionRecord(SavedSession())], sessions)
      ensures Valid() == old(Valid())
      ensures old(store.Valid()) ==> store.Valid()
    {
      var updated := SavedSession();
      sessions := ReplaceById(sessions, currentSession.id, updated);
      store.SetItem(CurrentSessionKey, SessionRecord(updated));
      PersistSessions();
    }

    /** `updateMessagesInSession(newMessages)` called through the closure
        of the render whose `currentSession` was `rendered`. The session
        written is `rendered` with the new messages; the list is rewritten
        from its present value, by `rendered`'s id. The visible database
        type is not touched, so the invariant survives exactly when
        `rendered` had that type. */
    method UpdateMessagesAsRendered(rendered: Session, newMessages: seq<Message>)
      modifies this, store
      ensures messages == newMessages
      ensures currentSession == rendered.(messages := newMessages)
      ensures databaseType == old(databaseType)
      ensures sessions == ReplaceById(old(sessions), rendered.id, currentSession)
      ensures store.entries ==
        PersistedSessions(old(store.entries)[CurrentSessionKey := SessionRecord(currentSession)], sessions)
      ensures Valid() <==> databaseType == rendered.databaseType
      ensures old(store.Valid()) ==> store.Valid()
    {
      messages := newMessages;
      var updated := rendered.(messages := newMessages);
      currentSession := updated;
      store.SetItem(CurrentSessionKey, SessionRecord(updated));
      sessions := ReplaceById(sessions, rendered.id, updated);
      PersistSessions();
    }

    /** `updateMessagesInSession(newMessages)` from the present render. */
    method UpdateMessagesInSession(newMessages: seq<Message>)
      modifies this, store
      ensures messages == newMessages
      ensures currentSession == old(currentSession).(messages := newMessages)
      ensures databaseType == old(databaseType)
      ensures sessions == ReplaceById(old(sessions), old(currentSession).id, currentSession)
      ensures store.entries ==
        PersistedSessions(old(store.entries)[CurrentSessionKey := SessionRecord(currentSession)], sessions)
      ensures old(Valid()) ==> Valid()
      ensures old(store.Valid()) ==> store.Valid()
    {
      UpdateMessagesAsRendered(currentSession, newMessages);
    }
  }

  /** A later visit after a chat update: when the list was not empty, a new
      page on the same store mounts with the updated session and its
      messages. */
  method ReloadAfterUpdate(m: SessionManager, ms: seq<Message>, now: Instant, created: Instant)
    returns (next: SessionManager)
    requires m.store.Valid() && |m.sessions| > 0
    modifies m, m.store
    ensures next.store == m.store
    ensures next.sessions == m.sessions
    ensures next.currentSession == m.currentSession
    ensures next.messages == ms
    ensures next.databaseType == m.currentSession.databaseType
  {
    m.UpdateMessagesInSession(ms);
    ReloadAdopts(old(m.store.entries), m.sessions, m.currentSession);
    next := new SessionManager(m.store, now, created);
    next.Mount();
  }

  /** A first visit on an empty store, a chat update, and a later visit: the
      later page starts over with only its own welcome message, though
      `current-session` holds the chat. */
  method ReloadFromEmptyStore(store: LocalStorage, ms: seq<Message>,
                              now1: Instant, created1: Instant, now2: Instant, created2: Instant)
    returns (next: SessionManager)
    requires store.entries == map[]
    modifies store
    ensures next.messages == [WelcomeMessage(now2)]
    ensures next.sessions == []
    ensures CurrentSessionKey in store.entries && store.entries[CurrentSessionKey].SessionRecord?
      && store.entries[CurrentSessionKey].session.messages == ms
    ensures SessionsKey !in store.entries
  {
    var m := new SessionManager(store, now1, created1);
    m.Mount();
    m.UpdateMessagesInSession(ms);
    FreshChatLostOnReload(map[], m.currentSession);
    next := new SessionManager(store, now2, created2);
    next.Mount();
  }
}
