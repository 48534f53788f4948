/**
 * Sending a chat message (`handleSendMessage` in
 * src/components/query/ChatInterface.tsx). The send happens in two steps:
 * the user's message is appended at once, and a timer later appends the
 * system's reply carrying the generated query. The timer is modelled as a
 * second method; the first returns what its callback captured. The clock
 * (`Date.now()`, `new Date()`) is passed in.
 */
module ChatSend {
  import opened Records
  import opened Strings
  import opened Storage
  import opened MockDatabase
  import opened SessionManagement

  /** `Here's your ${databaseType.toUpperCase()} query:`. */
  function ReplyText(databaseType: DatabaseType): (r: string)
    ensures databaseType == Sql ==> r == "Here's your SQL query:"
    ensures databaseType == NoSql ==> r == "Here's your NOSQL query:"
  {
    var upper := ToUpper(DatabaseTypeName(databaseType));
    assert databaseType == Sql ==> upper == "SQL";
    assert databaseType == NoSql ==> upper == "NOSQL";
    "Here's your " + upper + " query:"
  }

  /** The query text of the reply. The send step passes the page's database
      type, `nosql`, to the NoSQL translator, which only translates for
      `mongodb`: every NoSQL reply is the placeholder. */
  function GeneratedQuery(text: string, databaseType: DatabaseType): (q: string)
    ensures databaseType == Sql ==> q == TranslateToSql(text, "sql")
    ensures databaseType == NoSql ==> q == NoSqlFallback(text)
  {
    match databaseType
    case Sql => TranslateToSql(text, DatabaseTypeName(Sql))
    case NoSql =>
      NoSqlPlaceholderUnlessMongo(text, DatabaseTypeName(NoSql));
      TranslateToNoSql(text, DatabaseTypeName(NoSql))
  }

  /** What the timer callback captured: the user's message, the list that
      already holds it, the render's database type, and the render's
      current session, which the captured `updateMessages` spreads. */
  datatype PendingReply = PendingReply(
    userMessage: Message,
    captured: seq<Message>,
    databaseType: DatabaseType,
    rendered: Session)

  /** The user's message: id from the clock, the input untrimmed. */
  function UserMessage(userInput: string, clock: nat, now: Instant): Message {
    Message(NatToString(clock), userInput, User, now, None, None)
  }

  /** The system's reply, built when the timer fires at `clock`. */
  function ReplyMessage(pending: PendingReply, clock: nat, now: Instant): (m: Message)
    ensures m.sender == System && m.timestamp == now
    ensures m.text == ReplyText(pending.databaseType)
    ensures m.query == Some(GeneratedQuery(pending.userMessage.text, pending.databaseType))
    ensures m.isExecuted == Some(false)
  {
    Message(NatToString(clock + 1), ReplyText(pending.databaseType), System, now,
            Some(GeneratedQuery(pending.userMessage.text, pending.databaseType)), Some(false))
  }

  /** With a clock that does not run backwards, the reply's id differs from
      the user message's. */
  lemma ReplyIdDiffers(input: string, sendClock: nat, replyClock: nat, now: Instant, pending: PendingReply, later: Instant)
    requires sendClock <= replyClock
    requires pending.userMessage == UserMessage(input, sendClock, now)
    ensures ReplyMessage(pending, replyClock, later).id != pending.userMessage.id
  {
    if NatToString(replyClock + 1) == NatToString(sendClock) {
      NatToStringInjective(replyClock + 1, sendClock);
    }
  }

  /** A request that asks for all users gets the list query as its SQL
      reply. */
  lemma ListUsersReply(pending: PendingReply, clock: nat, now: Instant)
    requires pending.databaseType == Sql
    requires ListsUsers(ToLower(pending.userMessage.text))
    ensures ReplyMessage(pending, clock, now).query == Some(ListUsersSql)
  {
    ListUsersGivesSelectAll(pending.userMessage.text, "sql");
  }

  class ChatInterface {
    const session: SessionManager
    var isGenerating: bool

    constructor (session: SessionManager)
      ensures this.session == session && !isGenerating
    {
      this.session := session;
      isGenerating := false;
    }

    /** The synchronous part of `handleSendMessage(userInput)`. Blank input
        changes nothing. Otherwise the user's message is appended through the
        session and generation starts. */
    method SendMessage(userInput: string, clock: nat, now: Instant) returns (pending: Option<PendingReply>)
      modifies this, session, session.store
      ensures pending.None? <==> IsBlank(userInput)
      ensures pending.None? ==>
        && isGenerating == old(isGenerating)
        && session.messages == old(session.messages)
        && session.currentSession == old(session.currentSession)
        && session.sessions == old(session.sessions)
        && session.store.entries == old(session.store.entries)
      ensures pending.Some? ==>
        && isGenerating
        && pending.value.userMessage == UserMessage(userInput, clock, now)
        && pending.value.captured == old(session.messages) + [pending.value.userMessage]
        && pending.value.databaseType == old(session.databaseType)
        && pending.value.rendered == old(session.currentSession)
        && session.messages == pending.value.captured
        && session.currentSession == old(session.currentSession).(messages := session.messages)
        && session.sessions ==
             ReplaceById(old(session.sessions), old(session.currentSession).id, session.currentSession)
        && session.store.entries ==
             PersistedSessions(old(session.store.entries)[CurrentSessionKey := SessionRecord(session.currentSession)],
                               session.sessions)
      ensures session.databaseType == old(session.databaseType)
      ensures old(session.Valid()) ==> session.Valid()
      ensures old(session.store.Valid()) ==> session.store.Valid()
    {
      TrimEmptyIff(userInput);
      if Trim(userInput) == [] {
        return None;
      }
      var userMessage := UserMessage(userInput, clock, now);
      var updatedMessages := session.messages + [userMessage];
      var databaseType := session.databaseType;
      var rendered := session.currentSession;
      session.UpdateMessagesInSession(updatedMessages);
      isGenerating := true;
      pending := Some(PendingReply(userMessage, updatedMessages, databaseType, rendered));
    }

    /** The timer callback: the reply is appended to the list captured in
        the first step, and the session written is the one captured then, so
        anything written to the messages or the current session in between
        is overwritten. The visible database type is left as it is now, and
        the invariant survives exactly when it still equals the captured
        session's. Generation stops. */
    method DeliverReply(pending: PendingReply, clock: nat, now: Instant)
      modifies this, session, session.store
      ensures !isGenerating
      ensures session.messages == pending.captured + [ReplyMessage(pending, clock, now)]
      ensures session.currentSession == pending.rendered.(messages := session.messages)
      ensures session.databaseType == old(session.databaseType)
      ensures session.sessions ==
        ReplaceById(old(session.sessions), pending.rendered.id, session.currentSession)
      ensures session.store.entries ==
        PersistedSessions(old(session.store.entries)[CurrentSessionKey := SessionRecord(session.currentSession)],
                          session.sessions)
      ensures session.Valid() <==> session.databaseType == pending.rendered.databaseType
      ensures old(session.store.Valid()) ==> session.store.Valid()
    {
      var reply := ReplyMessage(pending, clock, now);
      session.UpdateMessagesAsRendered(pending.rendered, pending.captured + [reply]);
      isGenerating := false;
    }
  }

  /** Switching the database type while a reply is pending: the reply
      writes the session captured at send time, which still says SQL, into
      the current session, `current-session` and the list, while the
      visible type stays NoSQL. The invariant is broken. */
  method SwitchTypeWhileGenerating(chat: ChatInterface, input: string, clock1: nat, now1: Instant,
                                   clock2: nat, now2: Instant)
    requires chat.session.Valid() && chat.session.databaseType == Sql
    requires !IsBlank(input)
    modifies chat, chat.session, chat.session.store
    ensures chat.session.databaseType == NoSql
    ensures chat.session.currentSession.databaseType == Sql
    ensures CurrentSessionKey in chat.session.store.entries
    ensures chat.session.store.entries[CurrentSessionKey] == SessionRecord(chat.session.currentSession)
    ensures !chat.session.Valid()
  {
    var pending := chat.SendMessage(input, clock1, now1);
    chat.session.HandleDatabaseTypeChange(NoSql);
    chat.DeliverReply(pending.value, clock2, now2);
  }
}
