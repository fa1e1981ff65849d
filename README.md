# Private chat: presence and delivery, modelled in Dafny

The system is a one-to-one chat application with three parts:

- a Node server, `server/server.js`, with a fixed directory of four users, a login lookup, a conversation history query, a contacts query, and the socket handlers `join`, `privateMessage` and `disconnect`;
- a Mongoose schema, `server/models/Message.js`, that trims and requires the three string fields of a message and gives `timestamp` a default;
- a React page, `client/src/App.js`, whose state hooks and handlers keep the online list, the open conversation, the notifications and the login form.

This project models that core and proves properties of it:

- `util.dfy` (`Util`): `Option`, `Result`, duplicate-freedom, subsequences, and first-occurrence deduplication (`new Set`).
- `strings.dfy` (`Strings`): JavaScript `String.prototype.trim` over the ECMAScript white-space and line-terminator characters, and `toLowerCase` on ASCII letters.
- `message.dfy` (`MessageSchema`): what the schema's setters and validators make of a document. Either the stored message, or the paths that fail.
- `server_queries.dfy` (`ServerQueries`): the user directory, login, conversation history and contacts, as functions of the message log.
- `server_sockets.dfy` (`ServerSockets`): a class `ChatServer`. It holds the registry `onlineUsers`, the `Object.keys` order of that registry, each socket's `username`, the connected sockets, one outbox per socket (each emit appends to it), and the saved log. Each handler is a method run as one atomic step.
- `client.dfy` (`ChatClient`): the pure computations inside the handlers, and a class `ChatClient` whose fields are the component's state hooks and whose methods are its handlers.
- `scenarios.dfy` (`Scenarios`): runs of the server handlers, each with a proved outcome. These include the stale disconnect that takes a reconnected user offline.

Behaviour taken from the code as written:

- The presence lookup after a save uses the receiver field exactly as the client sent it. The stored message holds it trimmed.
- A user who messages themself gets the message twice on their own socket.
- A socket that joined with the empty name is never removed from the registry, because `""` is falsy.
- `disconnect` deletes the entry for the socket's name regardless of which socket it now points at. The repository's design description speaks of an unregister that first checks the entry still belongs to the disconnecting socket, and of a reconnecting user staying online. The code does neither, and the model follows the code.

## Model

| member | source | states |
|---|---|---|
| Util.Dedup | server/server.js:95 | The deduplicated sequence has no repeats and exactly the elements of its input, and it leaves a duplicate-free input unchanged |
| Strings.TrimSpec | server/models/Message.js:7 | Trimming never lengthens a string. The result neither starts nor ends with white space, and it is empty exactly when the input is all white space |
| Strings.TrimStartSpec | server/models/Message.js:7 | Removing leading white space leaves a suffix whose dropped prefix is all white space and whose first character is not white space |
| Strings.TrimEndSpec | server/models/Message.js:7 | Removing trailing white space leaves a prefix whose dropped suffix is all white space and whose last character is not white space |
| Strings.TrimUnpadded | server/models/Message.js:7 | A string that neither starts nor ends with white space is its own trim |
| Strings.TrimIdempotent | server/models/Message.js:7 | Trimming twice is trimming once |
| Strings.TrimLeadingSpace | server/models/Message.js:7 | A leading white-space character disappears under trimming |
| Strings.ToLower | server/server.js:48 | Lower-casing keeps the length and maps each character through the ASCII lower-case mapping |
| Strings.ToLowerIdempotent | server/server.js:48 | A lower-cased name contains no upper-case letters, lower-case names are left alone, and lower-casing twice is lower-casing once |
| MessageSchema.FailingPaths | server/models/Message.js:4-18 | Each of `sender`, `receiver` and `text` is reported exactly when it is missing or empty after trimming |
| MessageSchema.Stored | server/models/Message.js:3-22 | An accepted document is well formed. It holds the three fields trimmed and its assigned id, and its timestamp is the one supplied or else the creation time |
| MessageSchema.Validate | server/models/Message.js:3-22 | Saving succeeds exactly when all three required fields survive trimming. On success the result is the stored document; on failure it is the non-empty list of failing paths |
| MessageSchema.BlankTextRejected | server/models/Message.js:14-18 | A missing or whitespace-only text fails validation on the text path |
| MessageSchema.BlankPartyRejected | server/models/Message.js:4-13 | A missing or whitespace-only sender fails validation on the sender path, and likewise the receiver on the receiver path |
| MessageSchema.RevalidateStored | server/models/Message.js:3-22 | Feeding an accepted message's own fields and timestamp back in gives the same message |
| ServerQueries.DirectoryWellFormed | server/server.js:30-35 | In the directory, connections are mutual, name only known users, and never name the user themself |
| ServerQueries.LoginAsWritten | server/server.js:46-58 | The lookup as written grants exactly the names whose lower case is a directory user or an inherited property name. It answers with the lower-cased name, and with the user's connections when the name is a real user |
| ServerQueries.LoginAsWrittenGrantsConstructor | server/server.js:50-55 | "Constructor" is no user, yet the lookup as written grants it as "constructor" with no connections |
| ServerQueries.Login | server/server.js:46-58 | Login succeeds exactly when the lower-cased name is a directory user. It then returns that name and that user's connections; otherwise it reports the user not found |
| ServerQueries.LoginCaseInsensitive | server/server.js:48-53 | Names that lower-case alike get the same answer, and the name returned logs in as itself |
| ServerQueries.LoginRefusesInheritedKeys | server/server.js:50 | The corrected lookup refuses the inherited property names |
| ServerQueries.Conversation | server/server.js:77-81 | The filter keeps exactly the log messages exchanged between the two users, with their multiplicities and in log order |
| ServerQueries.InsertByTime | server/server.js:82 | Inserting into a timestamp-sorted sequence keeps it sorted and adds exactly the one message |
| ServerQueries.SortByTime | server/server.js:82 | The sort yields a timestamp-ordered permutation of its input |
| ServerQueries.History | server/server.js:74-83 | The history is ordered by non-decreasing timestamp. It holds exactly the messages between the two users, each as often as in the log |
| ServerQueries.ConversationSymmetric | server/server.js:78-81 | The conversation filter does not depend on which user is named first |
| ServerQueries.HistorySymmetric | server/server.js:74-83 | History(u1, u2) equals History(u2, u1) |
| ServerQueries.HistoryHasNewMessage | server/server.js:74-83 | A message appended to the log appears in its two parties' history, in both orders of the names |
| ServerQueries.Receivers | server/server.js:93 | The list holds exactly the receivers of the user's messages |
| ServerQueries.Senders | server/server.js:94 | The list holds exactly the senders of messages to the user |
| ServerQueries.Contacts | server/server.js:90-96 | Each contact appears once, and the contacts are exactly those the user has written to or heard from |
| ServerQueries.ContactsSymmetric | server/server.js:90-96 | If v is a contact of u, then u is a contact of v |
| ServerSockets.Broadcast | server/server.js:109 | `io.emit` appends the event to every connected socket's outbox and to no other |
| ServerSockets.EmitTo | server/server.js:131 | An emit to one socket id appends to that socket's outbox if it is connected, and changes nothing else |
| ServerSockets.Deliver | server/server.js:129-134 | The sender's socket gets the message once, or twice when the raw receiver name is registered to the sender's own socket. Another socket gets it exactly when the raw receiver name is registered to it and it is connected |
| ServerSockets.AddKey | server/server.js:108-109 | Setting a key keeps the key order duplicate-free, adds just that key, and leaves the existing keys in place |
| ServerSockets.RemoveKey | server/server.js:143-144 | Deleting a key removes just that key and keeps the order of the rest |
| ServerSockets.ChatServer.OnlineKeys | server/server.js:109 | `Object.keys(onlineUsers)` lists each registered name exactly once |
| ServerSockets.ChatServer.constructor | server/server.js:38 | The server starts with an empty registry, no sockets and no messages |
| ServerSockets.ChatServer.Connect | server/server.js:102 | A connection adds one fresh socket with an empty outbox and no username, and changes nothing else |
| ServerSockets.ChatServer.Join | server/server.js:106-111 | `join` sets the socket's username and registers the name to the socket, overwriting any earlier socket (last join wins). It leaves the other entries alone and broadcasts exactly the registered names to every connected socket |
| ServerSockets.ChatServer.PrivateMessage | server/server.js:114-139 | A message is saved exactly when a payload arrived, all three fields validate, and the write succeeds. It is then appended to the log as validated, with a fresh id and timestamp, and delivered by `Deliver` using the raw receiver name. Otherwise nothing is emitted and the log is unchanged |
| ServerSockets.ChatServer.Disconnect | server/server.js:141-147 | The socket stops being connected. If it carries a non-empty username, that name is deleted from the registry whichever socket it points at, and the remaining names are broadcast to the connected sockets. Otherwise nothing else changes |
| ChatClient.VisibleOnline | client/src/App.js:37-40 | The online list holds exactly the broadcast names other than me that are among my connections, in broadcast order and without added repeats |
| ChatClient.MergeMessage | client/src/App.js:48-52 | The merge keeps every earlier message in place. It appends the incoming message exactly when its id is not yet shown, and afterwards the id is shown |
| ChatClient.MergeIdempotent | client/src/App.js:50 | Merging the same message twice is merging it once |
| ChatClient.MergeKeepsIdsUnique | client/src/App.js:48-52 | If the shown messages had distinct ids, they still do after the merge |
| ChatClient.BlankNeverSent | client/src/App.js:120 | A whitespace-only input is never sent |
| ChatClient.SentTextValidates | client/src/App.js:120-125 | Text the send guard lets through passes the schema's text rule (after trimming), so a message between clean names validates |
| ChatClient.ChatClient.constructor | client/src/App.js:7-16 | All state hooks start at their initial values: no socket, empty strings, empty lists, not logged in |
| ChatClient.ChatClient.Mount | client/src/App.js:27-31 | The connect effect sets the socket and changes nothing else |
| ChatClient.ChatClient.EditUsername | client/src/App.js:147 | Typing in the login box sets the username only |
| ChatClient.ChatClient.EditMessage | client/src/App.js:229 | Typing in the message box sets the input only |
| ChatClient.ChatClient.OnOnlineUsers | client/src/App.js:37-40 | On a presence broadcast, the online list becomes the filtered broadcast and nothing else changes |
| ChatClient.ChatClient.OnNewMessage | client/src/App.js:42-59 | An incoming message is merged only if it belongs to the open conversation, in either direction. A toast is raised exactly when the sender is someone else among my connections, whether or not the message belongs to the open conversation. Nothing else changes |
| ChatClient.ChatClient.SelectUser | client/src/App.js:73-89 | Selecting a user sets the selection. When the selection changes and both names are set, the messages become the fetched array, or empty for any other response or a failed request. Otherwise they stay |
| ChatClient.ChatClient.HandleLogin | client/src/App.js:91-116 | A blank name changes nothing, a failed request sets the connection error, and an unknown user sets the not-found error. On success the name and the connections are set, the latter to an empty list when the answer has none. With a socket, the join is emitted, the login completes and the error clears; without one, the connection error is shown |
| ChatClient.ChatClient.HandleSendMessage | client/src/App.js:118-128 | When the input is not blank and a socket and a selected user exist, exactly one message with the raw input is emitted, from me to the selected user, and the input is cleared. Otherwise nothing changes |
| Scenarios.Rejoined | server/server.js:106-111 | After two sockets join under the same name, only the second is registered to it |
| Scenarios.StaleDisconnectEvictsNewSession | server/server.js:141-145 | When the first of two sockets with the same name disconnects, the name is deleted although the newer socket is still connected, and that socket is told that no one is online |
| Scenarios.EmptyNameOutlivesItsSocket | server/server.js:142 | A socket that joined as "" disconnects but stays listed online |
| Scenarios.TwoOnline | server/server.js:106-111 | Two sockets joining under distinct names are both registered |
| Scenarios.DeliverToOnline | server/server.js:114-134 | A message to an online user reaches that user once and is echoed to the sender once |
| Scenarios.SendToOffline | server/server.js:114-134 | A message to a user who has disconnected is still saved and echoed to the sender, reaches no one else, and makes up their history |
| Scenarios.UntrimmedReceiverMissed | server/server.js:116-131 | A receiver given with a leading space is stored trimmed. The online receiver is not found, so only the sender gets the message |
| Scenarios.SelfMessageTwice | server/server.js:130-134 | A message to oneself arrives twice on one's own socket |

## Left out

- `Strings.ToLower`: only ASCII letters are lower-cased. The full Unicode case mapping of `toLowerCase` is not modelled.
- `ServerSockets.AddKey`: `Object.keys` lists integer-like keys first, in numeric order. The model keeps every key in insertion order.
- The registry as a plain object: a receiver or joined name equal to an inherited property name, such as "constructor", is treated as an ordinary key.
- Payload fields that are present but not strings, such as numbers cast by Mongoose or objects that fail the cast, are not modelled. A field is either a string or absent.
- `ServerQueries.History`: the model sorts stably, so messages with equal timestamps keep log order. MongoDB leaves that order unspecified, and the contract only promises ascending timestamps.
- `ServerQueries.Contacts`: the contacts follow log order. MongoDB `distinct` does not specify an order.
- Asynchrony: each handler, and `save` within `privateMessage`, is one atomic step. Interleavings of concurrent handlers and of `fetch` promises are not modelled. The write outcome and the clock are parameters.
- The query routes' error path, where a database failure gives a 500 response, is not modelled.
- A login request without a body makes the server fail with a 500. The client then sees that as a failed request (`reply == None`).
- `ChatClient.ChatClient.SelectUser`: the history effect also reruns when the username changes after login. The model reloads only on selecting a user.
- Toast expiry by `setTimeout`, and the `Date.now` ids, are not modelled: toasts only accumulate.
- Scrolling, `formatTime` and all rendering are not modelled.
- The `/api/users` and `/api/connections` routes (trivial lookups) are not modelled, nor are the passwords, which are never checked.
- The database index, Express, CORS, `mongoose.connect` and `server.listen` are not modelled. Socket.io transport and rooms are reduced to per-socket outboxes.

## Findings

| source | as written | input that shows it | evidently intended | confidence | as-written member | corrected member |
|---|---|---|---|---|---|---|
| server/server.js:50-55 | `users[lowerUsername]` is truthy for properties inherited from Object.prototype | login as "Constructor" (or "__proto__") succeeds as "constructor" with no connections | only the four directory users can log in | high; not executed | ServerQueries.LoginAsWrittenGrantsConstructor | ServerQueries.Login |
