# QueryGenie client core in Dafny

QueryGenie is a browser client that turns a plain-language request into an SQL
or MongoDB query, runs that query against canned mock data, and keeps the
conversation in chat sessions stored in the browser. This project models the
client's core and proves properties of it:

- **Mock back end** (`src/lib/database.ts`). The engine catalogue, the canned
  result tables and documents, and the two keyword-driven translators.
  Modules `MockDatabase` (`mock_database.dfy`) and `CapturePattern`
  (`capture_pattern.dfy`). The second one models the lazy regular
  expression that pulls an email or a category out of a request.
- **Session manager** (`src/hooks/useSessionManager.ts`). The class
  `SessionManagement.SessionManager` holds the fields `messages`,
  `databaseType`, `sessions` and `currentSession`, and writes through to a
  `Storage.LocalStorage` object under `query-sessions` and `current-session`.
  Every React state setter becomes a field assignment. The effect that
  persists `sessions` becomes the last step of each method that sets the list.
- **Query execution** (`src/hooks/useQueryExecution.ts`). This covers
  marking executed messages, choosing the mock result, the CSV export, and
  the class `QueryExecution.QueryExecutionController`.
- **Chat send** (`handleSendMessage` in
  `src/components/query/ChatInterface.tsx`). The class
  `ChatSend.ChatInterface` has two steps. `SendMessage` appends the user's
  message. `DeliverReply` is the timer callback that appends the system
  reply.
- **Mock authentication** (`src/context/AuthContext.tsx`). The class
  `Auth.AuthProvider` holds `user` and `isLoading` and writes the `user` key.

Supporting modules:

- `Records` covers the message, session and user records of
  `src/types/query.ts`.
- `Strings` gives the JavaScript string operations these files use:
  ASCII case mapping, `includes`, `join`, one-character `split`, `trim`, and
  the decimal form of a number.
- `Storage` models the store as a map from key to already-parsed value.

Each `setTimeout` callback is a separate method. The first step returns a
value that holds what the callback captured (`PendingExecution`,
`PendingReply`): the render's messages and database type, and the render's
`currentSession`, which the captured `updateMessagesInSession` closure
spreads into the session it writes. `Date.now()` and `new Date()` are
parameters (`clock`, `now`, `created`).

Behaviour of the code worth noting:

- The three session mutators rewrite `sessions` with `map` by id. They never
  append a session that is missing from the list. A fresh session `1` is
  therefore never added to an empty list, and `query-sessions` is never
  written for it (`ReplaceByIdAbsent`, `PersistedSessions`).
- `current-session` is read only when `query-sessions` is set
  (`AdoptedSession`).
- JSON parse failures are not caught.
- There is no `lastUpdated` field.
- There is no defence against a non-array `messages` field.
- A timer callback writes the session its render captured. When the
  database type is switched while a reply is pending, the reply puts the
  old type back into `currentSession`, `current-session` and the list, while
  the visible type keeps the new one (`SwitchTypeWhileGenerating`).
- A chat started on an empty store is lost on the next visit: only
  `current-session` is written, and it is read only under `query-sessions`
  (`ReloadFromEmptyStore`; see Findings).

## Model

| member | source | states |
|---|---|---|
| Records.DatabaseTypeName | src/types/query.ts:15 | the literal is `sql` exactly for SQL and `nosql` exactly for NoSQL |
| Strings.ToLowerShape | src/lib/database.ts:178 | lower-casing keeps the length, leaves no upper-case ASCII letter and changes nothing else |
| Strings.ToLowerIdempotent | src/lib/database.ts:178 | lower-casing twice is lower-casing once |
| Strings.ToLowerOfLower | src/lib/database.ts:209 | text without upper-case ASCII letters is its own lower-case form |
| Strings.IncludesIff | src/lib/database.ts:180 | the left-to-right `includes` scan succeeds exactly when the substring occurs at some index |
| Strings.IncludesAt | src/lib/database.ts:180 | an occurrence at any index makes `includes` true |
| Strings.IncludesPrefix | src/lib/database.ts:180 | a string includes each of its prefixes |
| Strings.JoinExcludes | src/hooks/useQueryExecution.ts:50-53 | a character that is in no part and not in the separator is not in the joined text |
| Strings.SplitJoin | src/hooks/useQueryExecution.ts:50-55 | splitting a join on the same one-character separator gives the parts back when no part contains it |
| Strings.TrimStart | src/components/query/ChatInterface.tsx:34 | the result is a suffix, everything dropped is whitespace, and it does not start with whitespace |
| Strings.TrimEnd | src/components/query/ChatInterface.tsx:34 | the result is a prefix, everything dropped is whitespace, and it does not end with whitespace |
| Strings.TrimEmptyIff | src/components/query/ChatInterface.tsx:34 | `trim()` gives the empty string exactly when every character is whitespace |
| Strings.NatToString | src/components/query/ChatInterface.tsx:41 | `toString()` of a clock value is non-empty and all digits, with no leading zero |
| Strings.NatToStringRoundTrip | src/components/query/ChatInterface.tsx:41 | reading the digits back gives the number |
| Strings.NatToStringInjective | src/components/query/ChatInterface.tsx:63 | different clock values give different id strings |
| Storage.LocalStorage.SetItem | src/hooks/useSessionManager.ts:57 | `setItem` overwrites that one key and keeps every key's shape valid |
| Storage.LocalStorage.RemoveItem | src/context/AuthContext.tsx:97 | `removeItem` deletes that one key and nothing else |
| CapturePattern.SkipWhitespace | src/lib/database.ts:183 | the `\s+` run is taken whole: everything skipped is whitespace and the next character is not |
| CapturePattern.StopsAtIff | src/lib/database.ts:183 | the closing alternation (end of text, or whitespace then `and`, `where` or `with`) matches at k exactly when whitespace then a stop word follows k, or k is the end |
| CapturePattern.LazyEnd | src/lib/database.ts:183 | the lazy group `(.+?)` ends at the smallest accepted end, or nowhere if no end is accepted |
| CapturePattern.CaptureAt | src/lib/database.ts:183 | a match at a given start needs the key there and gives the shortest accepted group |
| CapturePattern.FirstMatchFrom | src/lib/database.ts:183 | the match taken is the leftmost start that has one |
| CapturePattern.Capture | src/lib/database.ts:183 | the group is non-empty, has no line terminator, and follows the key in the text; there is none exactly when no start matches |
| CapturePattern.CaptureOfLowerCase | src/lib/database.ts:188 | a value captured from lower-cased text has no upper-case letter |
| MockDatabase.CatalogueKinds | src/lib/database.ts:16-76 | eight engines, the first four SQL and the rest NoSQL, with `mongodb` listed once |
| MockDatabase.UsersTableFits | src/lib/database.ts:97-103 | each users row has exactly the listed columns as keys |
| MockDatabase.ProductsTableFits | src/lib/database.ts:106-112 | each products row has exactly the listed columns as keys |
| MockDatabase.OrdersTableFits | src/lib/database.ts:115-121 | each orders row has exactly the listed columns as keys |
| MockDatabase.SuccessTableFits | src/lib/database.ts:125-128 | the fallback row has exactly the `result` key |
| MockDatabase.GenerateMockSqlResults | src/lib/database.ts:94-129 | every result's rows have exactly its columns as keys; the users table comes back exactly when `select` and `from users` occur, products and orders only when the earlier tests fail, and the one-row success table exactly when no branch fires |
| MockDatabase.SqlUsersBranchFirst | src/lib/database.ts:96 | `select` with `from users` gives the users table, even when products or orders are also named |
| MockDatabase.SqlNeedsSelect | src/lib/database.ts:96-128 | without `select` the result is always the one-row success table |
| MockDatabase.GenerateMockNoSqlResults | src/lib/database.ts:132-173 | the result is never empty, and it is the success document exactly when no find branch fires |
| MockDatabase.NoSqlNeedsFind | src/lib/database.ts:134-172 | without `find` the result is always the one success document |
| MockDatabase.StripQuotes | src/lib/database.ts:184 | `replace(/['"]/g, '')` leaves no quote and never lengthens the text |
| MockDatabase.StripQuotesAppend | src/lib/database.ts:184 | stripping a concatenation is the concatenation of the stripped parts, so the text is filtered character by character in order |
| MockDatabase.StripQuotesChar | src/lib/database.ts:184 | a single quote character is removed and any other single character is kept |
| MockDatabase.StripQuotesUnquoted | src/lib/database.ts:184 | text without quotes is left as it is |
| MockDatabase.StripQuotesKeepsLowerCase | src/lib/database.ts:189 | removing quotes adds no upper-case letter |
| MockDatabase.ExtractedOr | src/lib/database.ts:183-184 | the default is used when the pattern does not match; a captured value has no quote |
| MockDatabase.EmailUnquoted | src/lib/database.ts:184 | the email put in the query never holds a quote |
| MockDatabase.CapturedCategoryIsNotDefault | src/lib/database.ts:188-189 | a captured category is never the capitalised default `Electronics` |
| MockDatabase.TranslateToSql | src/lib/database.ts:176-204 | the result is the commented placeholder exactly when no keyword branch fires, and then it echoes the request |
| MockDatabase.ListUsersGivesSelectAll | src/lib/database.ts:180-181 | either phrase for listing users gives exactly `SELECT * FROM users;` |
| MockDatabase.ListUsersBeatsJoin | src/lib/database.ts:180-200 | a request that lists users and would also join gives the list query, not the join |
| MockDatabase.ShowAllUsersWithOrders | src/lib/database.ts:180-200 | "show all users with orders" passes both tests and gives `SELECT * FROM users;` |
| MockDatabase.FindUserByEmailQuery | src/lib/database.ts:182-185 | the find-user branch uses the captured email without quotes, or `example@email.com` when the pattern fails |
| MockDatabase.CountProductsQuery | src/lib/database.ts:186-192 | the count branch filters on the captured or default category when "category" is present, and counts all products otherwise |
| MockDatabase.UnmatchedEchoesRequest | src/lib/database.ts:203 | a request with no keyword gets the placeholder holding the request as typed, not lower-cased |
| MockDatabase.TranslateToNoSql | src/lib/database.ts:207-248 | the result is the placeholder exactly when the engine is not `mongodb` or no keyword fires, and then it echoes the request |
| MockDatabase.NoSqlPlaceholderUnlessMongo | src/lib/database.ts:211 | any engine id other than `mongodb` gets the placeholder, whatever the request |
| MockDatabase.MongoMirrorsSql | src/lib/database.ts:211-247 | for `mongodb`, the NoSQL translator gives its placeholder exactly when the SQL translator gives its own |
| MockDatabase.MongoListUsers | src/lib/database.ts:212-213 | for `mongodb`, either phrase for listing users gives `db.users.find({})` |
| MockDatabase.ShowAllUsersScenario | src/lib/database.ts:96-104 | "Show all users" translates to the list query, and running that query gives the users table |
| SessionManagement.ReplaceById | src/hooks/useSessionManager.ts:73-78 | the list keeps its length; entries with the id become the new session, and the others are unchanged |
| SessionManagement.ReplaceByIdAbsent | src/hooks/useSessionManager.ts:89-94 | a list without the id comes back unchanged, so nothing is appended |
| SessionManagement.ReplaceByIdLastWins | src/hooks/useSessionManager.ts:112-117 | two rewrites of one id leave only the second session when the first keeps the id |
| SessionManagement.ReplaceByIdIdempotent | src/hooks/useSessionManager.ts:112-117 | rewriting twice with the same session is rewriting once |
| SessionManagement.PersistedSessions | src/hooks/useSessionManager.ts:55-59 | the list is written only when it is non-empty, an empty list leaves the store as it was, and no other key is touched |
| SessionManagement.PersistThenLoad | src/hooks/useSessionManager.ts:31-59 | a non-empty list written by the persist effect is found by the load effect, and an empty list leaves what the store held |
| SessionManagement.ReloadAdopts | src/hooks/useSessionManager.ts:31-59 | after a mutator writes `current-session` and persists a non-empty list, a reload adopts that list and that current session |
| SessionManagement.FreshChatLostOnReload | src/hooks/useSessionManager.ts:112-117 | rewriting an empty list by id gives the empty list, so only `current-session` is written and a reload adopts no session |
| SessionManagement.UpsertById | src/hooks/useSessionManager.ts:112-117 | the intended update: the entry with the id is rewritten, or the session is appended when there is none, so the list always holds the id |
| SessionManagement.UpsertReloadRoundTrip | src/hooks/useSessionManager.ts:31-59 | with the intended update, a reload from any store, an empty one included, finds the list and the current session |
| SessionManagement.AdoptedSession | src/hooks/useSessionManager.ts:31-51 | nothing is adopted without `query-sessions`; the stored current session wins; otherwise the last stored session is adopted, if there is one |
| SessionManagement.SessionManager.constructor | src/hooks/useSessionManager.ts:8-28 | one welcome message stamped `now`, SQL, no sessions, and current session `1` holding the welcome message, created at `created` |
| SessionManagement.SessionManager.PersistSessions | src/hooks/useSessionManager.ts:55-59 | the store becomes PersistedSessions of the current list |
| SessionManagement.SessionManager.Mount | src/hooks/useSessionManager.ts:31-52 | adopts the stored list and the adopted session's messages and type, or changes nothing; the store ends as it was |
| SessionManagement.SessionManager.HandleDatabaseTypeChange | src/hooks/useSessionManager.ts:61-79 | the type and the current session's type become the new value, nothing else in the session changes, the list is rewritten by id, and `current-session` is written |
| SessionManagement.SessionManager.SavedSession | src/hooks/useSessionManager.ts:83-87 | the merged session keeps the current id, name and date and takes the visible messages and type; under the invariant it is the current session |
| SessionManagement.SessionManager.SaveSession | src/hooks/useSessionManager.ts:81-98 | the merged session is written to the list and to `current-session`, and `currentSession` itself is left alone |
| SessionManagement.SessionManager.UpdateMessagesAsRendered | src/hooks/useSessionManager.ts:100-118 | through a closure whose render held session `rendered`: the messages become the new list, the current session becomes `rendered` with them, the list is rewritten by that id, and the invariant holds exactly when the visible type is `rendered`'s |
| SessionManagement.SessionManager.UpdateMessagesInSession | src/hooks/useSessionManager.ts:100-118 | the messages and the current session's messages become the new list, the list is rewritten by id, and `current-session` holds the new current session |
| SessionManagement.ReloadAfterUpdate | src/hooks/useSessionManager.ts:31-59 | after an update on a non-empty list, a new page on the same store mounts with the same list, the updated current session and its messages |
| SessionManagement.ReloadFromEmptyStore | src/hooks/useSessionManager.ts:21-59 | first visit on an empty store, a chat update, and a new page: the new page shows only its own welcome message and no sessions, though `current-session` holds the chat |
| QueryExecution.MarkExecuted | src/hooks/useQueryExecution.ts:34-36 | length and order are kept; exactly the messages whose query equals the text get `isExecuted = true`, and the rest are unchanged |
| QueryExecution.MarkExecutedIdempotent | src/hooks/useQueryExecution.ts:34-36 | marking twice with the same query is marking once |
| QueryExecution.MarkExecutedCommutes | src/hooks/useQueryExecution.ts:34-36 | marking two queries gives the same list in either order |
| QueryExecution.MarkExecutedKeepsMessages | src/hooks/useQueryExecution.ts:34-36 | ids, texts and queries are kept, and an executed message stays executed |
| QueryExecution.RunMock | src/hooks/useQueryExecution.ts:23-29 | SQL gets the mock table, whose rows fit its columns; NoSQL gets the mock documents, never an empty list |
| QueryExecution.JsonText | src/hooks/useQueryExecution.ts:52 | an integer cell is written in decimal, with a minus sign when negative, and its digits read back to the number |
| QueryExecution.EmptyTableCsv | src/hooks/useQueryExecution.ts:50-55 | a table with no rows exports as the header and one line feed |
| QueryExecution.CsvReadsBack | src/hooks/useQueryExecution.ts:50-55 | with no comma or line feed in names and cells, the text splits into the header and one line per row, and each line splits into the quoted cell texts in column order |
| QueryExecution.QuoteNotDoubled | src/hooks/useQueryExecution.ts:52 | a double quote inside a value is written as it is, not doubled as section 2 of RFC 4180 asks |
| QueryExecution.ExportResults | src/hooks/useQueryExecution.ts:45-82 | nothing without results; CSV of the table under SQL; JSON under NoSQL; a TypeError when documents are exported under SQL |
| QueryExecution.QueryExecutionController.constructor | src/hooks/useQueryExecution.ts:13-15 | no active query, no results, not loading |
| QueryExecution.QueryExecutionController.HandleExecuteQuery | src/hooks/useQueryExecution.ts:17-19 | the query becomes active and loading starts before any result exists; the callback captures the query, the type, the messages and the current session |
| QueryExecution.QueryExecutionController.CompleteExecution | src/hooks/useQueryExecution.ts:22-42 | the result is the mock for the captured type, loading stops, and the captured messages with the query marked are written into the captured session, overriding what changed in between |
| QueryExecution.QueryExecutionController.HandleExportResults | src/hooks/useQueryExecution.ts:45-82 | the outcome is ExportResults of the held results and the session's type, and no state changes |
| ChatSend.ReplyText | src/components/query/ChatInterface.tsx:64 | the reply reads `Here's your SQL query:` or `Here's your NOSQL query:` |
| ChatSend.GeneratedQuery | src/components/query/ChatInterface.tsx:53-59 | SQL uses the SQL translator; NoSQL passes `nosql` to the NoSQL translator and so always gets the placeholder |
| ChatSend.ReplyMessage | src/components/query/ChatInterface.tsx:62-69 | the reply is a system message with the reply text, the generated query, and `isExecuted = false` |
| ChatSend.ReplyIdDiffers | src/components/query/ChatInterface.tsx:63 | with a clock that does not run backwards, the reply's id differs from the user message's id |
| ChatSend.ListUsersReply | src/components/query/ChatInterface.tsx:55-56 | an SQL request for all users gets `SELECT * FROM users;` as its reply query |
| ChatSend.ChatInterface.constructor | src/components/query/ChatInterface.tsx:31 | not generating |
| ChatSend.ChatInterface.SendMessage | src/components/query/ChatInterface.tsx:33-49 | blank input changes nothing; otherwise the untrimmed user message is appended through the session, generation starts, and the callback captures the new list, the type and the current session |
| ChatSend.ChatInterface.DeliverReply | src/components/query/ChatInterface.tsx:52-73 | the messages become the captured list plus the reply, the current session becomes the captured one holding them, changes made in between are discarded, and generation stops |
| ChatSend.SwitchTypeWhileGenerating | src/components/query/ChatInterface.tsx:47-71 | switching SQL to NoSQL while a reply is pending leaves the visible type NoSQL but the current session and `current-session` SQL |
| Auth.LoginResult | src/context/AuthContext.tsx:46-51 | login yields a user exactly for `demo@example.com` / `password`, and that user is the fixed demo user |
| Auth.RegisteredUser | src/context/AuthContext.tsx:77-81 | the new user keeps the given email and name, and the id is `user-` followed by digits that read back to the clock |
| Auth.RegisteredIdsDiffer | src/context/AuthContext.tsx:78 | registrations at different instants get different ids |
| Auth.RegisteredIdIsNotDemo | src/context/AuthContext.tsx:48 | a registered id never equals the demo id `user-1` once the clock has two digits |
| Auth.AuthProvider.constructor | src/context/AuthContext.tsx:24-25 | no user, loading |
| Auth.AuthProvider.IsAuthenticated | src/context/AuthContext.tsx:106 | authenticated exactly when a user is set, and so, while memory and store agree, exactly when the store holds a user |
| Auth.AuthProvider.Mount | src/context/AuthContext.tsx:28-35 | adopts the stored user when there is one and stops loading; store and memory then agree |
| Auth.AuthProvider.Login | src/context/AuthContext.tsx:37-66 | the demo pair sets and stores the demo user; any other pair changes neither user nor store; loading ends false |
| Auth.AuthProvider.Register | src/context/AuthContext.tsx:68-93 | always sets and stores the new user; loading ends false |
| Auth.AuthProvider.Logout | src/context/AuthContext.tsx:95-100 | the user is cleared and only the `user` key is removed |

## Left out

- Rendering, routing, toasts, `navigate` and `console.error` are left out. They produce no state the core reads.
- JSON text is left out. The store holds already-parsed values, so `JSON.stringify` and `JSON.parse` are not modelled, and neither is a stored value of the wrong shape. The code does not catch parse failures, so a well-shaped store is a precondition (`LocalStorage.Valid`).
- Blob, object URL and download link handling is left out. So is the pretty-printing of NoSQL results. An export is modelled as the outcome it produces (`ExportOutcome`).
- `mockSchemas` (src/lib/database.ts:79-91) is not modelled: no modelled operation reads it.
- The `setMessages` and `setDatabaseType` setters that useSessionManager returns are not modelled as operations. They are bare field assignments, and none of the modelled callers uses them.
- React render timing is left out outside the timer callbacks. Each handler runs against the object's present state, and state batching is not modelled. The timer callbacks run against what their render captured, the current session included (`PendingExecution`, `PendingReply`).
- Timer delays, the order of several pending callbacks, and cancellation are not modelled.
- Auth.AuthProvider.Login: the one-second pause, during which `isLoading` is true, is not a separate step. The model sets the flag and clears it within one method. The `catch` branch is not modelled, since nothing modelled inside the `try` throws.
- Auth.AuthProvider.Register: the pause and the `catch` branch are left out, as for Login.
- Strings.ToLower: lowercases ASCII letters only. Unicode case mapping is not modelled.
- Strings.ToUpper: uppercases ASCII letters only. It is applied only to `sql` and `nosql`.
- QueryExecution.JsonText: decimal numbers in the mock data are kept as their literal text, and no arithmetic is done on them. Number formatting is modelled for integers only.

## Findings

| source | as written | input that shows it | evidently intended | confidence | as-written member | corrected member |
|---|---|---|---|---|---|---|
| src/hooks/useSessionManager.ts:112-117 | the session list is rewritten with `map` by id, so a session missing from the list is never added; with the first-visit list empty, `query-sessions` is never written, and the load effect reads `current-session` only under it | empty store; mount; send one message; open the page again: it shows only a new welcome message | rewrite the entry with the id, or append the session when the list has none, so the chat is found again on the next visit | high, from the code's text; not executed | SessionManagement.FreshChatLostOnReload | SessionManagement.UpsertReloadRoundTrip |

The class `SessionManagement.SessionManager` keeps the code as written, so that
its method contracts describe the program. `SessionManagement.UpsertById` is
the corrected list update, and `UpsertReloadRoundTrip` proves the reload round
trip for it from any store.
