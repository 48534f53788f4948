/**
 * The records the client passes around: chat messages and sessions
 * (src/types/query.ts) and the signed-in user (src/context/AuthContext.tsx).
 * Timestamps are opaque instants; nothing computes with them.
 */
module Records {

  datatype Option<T> = None | Some(value: T)

  /** `'sql' | 'nosql'`. */
  datatype DatabaseType = Sql | NoSql

  /** The literal the source uses for a database type. */
  function DatabaseTypeName(t: DatabaseType): (name: string)
    ensures name == "sql" <==> t == Sql
    ensures name == "nosql" <==> t == NoSql
  {
    match t
    case Sql => "sql"
    case NoSql => "nosql"
  }

  /** `'user' | 'system'`. */
  datatype Sender = User | System

  /** A `Date`, kept opaque. */
  datatype Instant = Instant(epochMillis: nat)

  /** `MessageType`: the optional fields `query` and `isExecuted` are
      `None` when the property is absent. */
  datatype Message = Message(
    id: string,
    text: string,
    sender: Sender,
    timestamp: Instant,
    query: Option<string>,
    isExecuted: Option<bool>)

  /** `SessionType`. */
  datatype Session = Session(
    id: string,
    name: string,
    messages: seq<Message>,
    databaseType: DatabaseType,
    dateCreated: Instant)

  /** The `User` interface of the authentication context. */
  datatype AuthUser = AuthUser(id: string, email: string, name: string)
}
