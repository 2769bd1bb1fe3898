# Live relay and chat paging of the meeting and messaging web app

This project models two parts of the app. The first is the backend's socket.io
relay. The second is the chat box's message list in the frontend.

The relay is the set of handlers that `setupSocketIO` installs on every
connection:

- `join_meet` and the WebRTC signalling relays `offer`, `answer` and
  `ice_candidate`;
- the chat handshake `join_chat`, with online presence on the first socket of
  a user;
- `msg` and `call`, which fan out to a room;
- the chat `disconnect` handler, with offline presence on the last socket;
- the two MongoDB change-stream filters `handleRoomsChange` and
  `handleInvitationsChange`, which turn a matching update into a content-free
  `room` or `inv` signal.

All of this runs over socket.io's in-memory room map. The map goes from a room
id to the sockets in that room. A socket sits in the room named by its own id.
A socket that has completed `join_chat` also sits in the self-room named by its
user's id. Empty rooms are deleted.

The chat box part covers two handlers:

- `handleGetMoreMessages` computes the `(limit, skip)` window of the next older
  page and prepends the page it gets back.
- `handleReceiveMessage` filters a pushed message by room and by sender and
  appends it.

Modules:

- `Rooms` (`rooms.dfy`): the adapter's room map, with join, join-a-list and
  leave-everything.
- `ChangeStream` (`change_stream.dfy`): the field-name regular expressions as
  data, the direct test proved equal to them, and the change-event filter.
- `Relay` (`relay.dfy`): the server state as a class `Server`. It holds the
  tables in a `Hub` value that keeps an invariant, `Consistent`, plus a log of
  every emit and a log of every store call. Each handler is a method. Each emit
  is logged with the set of sockets it reaches at that moment:
  - `socket.to(x)` reaches the members of `x` except the members of the room
    named by the sender's id (socket.io excludes that room, which holds the
    sender and any socket that joined a room of that name);
  - `io.to(x)` reaches all members of `x`;
  - `socket.emit` reaches the sender alone.
- `ChatBox` (`chat_box.dfy`): the page window, the state updaters and their
  agreement with a server-side history.
- `Wrappers` (`wrappers.dfy`): `Option`.

Inputs the handlers get from outside are parameters of the methods:

- what `getRooms` returns (`None` when it throws or finds no user);
- whether `setStatus(userId, true)` succeeds;
- the uuid that `call` draws.

The calls `setStatus` and `saveMessage` are recorded in `calls`, not executed.
`getRooms` is not recorded; only its result is a parameter. Emits and store
calls are kept in two separate sequences, so the model fixes the order within
each, not the order between an emit and a store call.

Socket, room and user ids share one namespace. They are modelled as an abstract
type `Name` that is compared only by equality. The only place where the text of
an id matters is the handshake check `!userId || typeof userId !== "string"`.
For that check, `Header` gives the empty string its own case (`EmptyText`).

Some behaviours of the code a reader may not expect:

- `msg` does not check that the sender is a member of the room: it relays to
  any room id it is given.
- `onl` goes to the user's rooms minus the room named by the joining socket's
  id (`socket.to`), and only after `setStatus(userId, true)` has succeeded.
- When `setStatus(userId, true)` fails, the catch block sends `error` and
  disconnects the socket. The persistence failure is not just logged.
- `off` is sent before `setStatus(userId, false)` is called, so a failure of
  that call does not suppress it.
- The offline check looks only at the self-room. It does not look at other
  connections of the user.
- `offer`, `answer` and `ice_candidate` go to the room named by the target id,
  minus the room named by the sender's id. The target's room holds the target
  socket, if it is still connected. It also holds anyone who joined a room of
  that name. A socket that joined a room named by the sender's id is left out:
  after B sends `join_meet(A.id)`, an `offer` of A to B reaches nobody.
- The presence check of `join_chat` runs after the user's rooms are joined and
  before the self-room is joined.

## Model

| member | source | states |
|---|---|---|
| Rooms.JoinMembers | backend/src/controllers/socket/index.ts:19 | `socket.join(r)` adds the socket to room `r` and to no other room, and no room becomes empty |
| Rooms.JoinAllMembers | backend/src/controllers/socket/index.ts:50-54 | joining each room of a list adds the socket to exactly the rooms in the list, whatever their order or repetitions |
| Rooms.LeaveMembers | backend/src/controllers/socket/index.ts:80-82 | when a socket disconnects it is gone from every room, every other member stays, and rooms left empty are deleted |
| Rooms.LeaveAfterJoinAll | backend/src/controllers/socket/index.ts:50-57 | a socket that joined its rooms and is then disconnected leaves the rooms exactly as a disconnect without those joins would: out of every room, its own and any meeting room included |
| Rooms.JoinAllThenJoin | backend/src/controllers/socket/index.ts:50-63 | after `join_chat` the socket is in every room of the user's list and in the self-room |
| ChangeStream.DigitsMatchPlus | backend/src/controllers/socket/index.ts:109 | `\d+` matches exactly the non-empty strings of ASCII digits |
| ChangeStream.DotDigits | backend/src/controllers/socket/index.ts:109 | `\.\d+` matches exactly a dot followed by one or more digits |
| ChangeStream.FieldMatchesSound | backend/src/controllers/socket/index.ts:109 | every key that is the field itself, or the field, a dot and digits, matches `^field(?:\.\d+)?$` |
| ChangeStream.FieldMatchesComplete | backend/src/controllers/socket/index.ts:136 | every key matching `^field(?:\.\d+)?$` is the field itself, or the field, a dot and digits |
| ChangeStream.FieldMatchesRegex | backend/src/controllers/socket/index.ts:109 | the direct test and the anchored regular expression agree on every key, in both directions |
| ChangeStream.AnyFieldMatches | backend/src/controllers/socket/index.ts:111 | `some(key => regex.test(key))` holds exactly when some updated key matches the pattern |
| ChangeStream.ChangeTarget | backend/src/controllers/socket/index.ts:106-122 | a change yields a target exactly when it is an update with an update description and some updated key matches the pattern; the target is the document key |
| ChangeStream.FieldExamplesAccepted | backend/src/controllers/socket/index.ts:109 | `participants`, `participants.2` and `invitations.10` match their patterns |
| ChangeStream.FieldExamplesRejectedPaths | backend/src/controllers/socket/index.ts:109 | `participants.` and `participants.2.name` do not match |
| ChangeStream.FieldExamplesRejectedNames | backend/src/controllers/socket/index.ts:109 | `participantsX` and `title` do not match |
| ChangeStream.ChangeTargetExamples | backend/src/controllers/socket/index.ts:106-118 | an update of `participants.2` signals the room; an update of `title`, or an insert, signals nothing |
| Relay.Fanout | backend/src/controllers/socket/index.ts:59-61 | a `forEach` over the rooms emits once per room, in list order, each emit to that room's members except the excluded sockets |
| Relay.EmitToEach | backend/src/controllers/socket/index.ts:85-87 | the emit loop over the user's rooms produces exactly the `Fanout` emits |
| Relay.JoinEach | backend/src/controllers/socket/index.ts:50-54 | the join loop over the user's rooms produces exactly the joined room map |
| Relay.AttachKeepsConsistent | backend/src/controllers/socket/index.ts:14 | a new connection, in its own room, keeps the tables consistent |
| Relay.DetachKeepsConsistent | backend/src/controllers/socket/index.ts:80-82 | removing a socket from every room and every table keeps the tables consistent |
| Relay.JoinKeepsConsistent | backend/src/controllers/socket/index.ts:19 | a live socket joining a room keeps the tables consistent |
| Relay.JoinAllKeepsConsistent | backend/src/controllers/socket/index.ts:50-54 | a live socket joining a list of rooms keeps the tables consistent |
| Relay.BindKeepsConsistent | backend/src/controllers/socket/index.ts:63-65 | the chat handlers may be bound to a socket once it sits in the self-room of its own header's user |
| Relay.EnterKeepsConsistent | backend/src/controllers/socket/index.ts:47-70 | a completed chat handshake keeps the tables consistent and leaves the socket in every room of its list and in its self-room |
| Relay.SecondSocketStaysOnline | backend/src/controllers/socket/index.ts:55 | when a user already has a chat socket, the presence check of any further socket finds the self-room non-empty, so no second `onl` |
| Relay.OfflineAtLastSocket | backend/src/controllers/socket/index.ts:82 | the disconnect handler finds the self-room empty exactly when the disconnecting socket was the only one in it |
| Relay.Server.constructor | backend/src/controllers/socket/index.ts:10-14 | the server starts with no rooms, no sockets, no emits and no store calls |
| Relay.Server.Connect | backend/src/controllers/socket/index.ts:14 | a connection joins its own room and records its header; nothing is registered yet |
| Relay.Server.OnJoinMeet | backend/src/controllers/socket/index.ts:17-20 | the socket joins the meeting and `new_peer` goes to the meeting's members minus the members of the room named by the sender's id, so only to sockets already there and never to the sender |
| Relay.Server.OnSignal | backend/src/controllers/socket/index.ts:21-32 | after `join_meet`, `[sender, data]` goes to the room named by the target minus the room named by the sender, so never to the sender; before it nothing is relayed |
| Relay.Server.OnJoinChat | backend/src/controllers/socket/index.ts:35-99 | an invalid user gets `Invalid user` and is disconnected; a failed `getRooms` or `setStatus` gives `Internal Server Error` and a disconnect; otherwise the completed-join state, whose `onl` fan-out leaves out the room named by the sender's id |
| Relay.Server.RejectJoin | backend/src/controllers/socket/index.ts:55-57 | a failed `setStatus(userId, true)` sends `error`, records the call and disconnects the socket, so the rooms end as a disconnect without the joins of `join_chat` would leave them |
| Relay.Server.CompleteJoin | backend/src/controllers/socket/index.ts:55-70 | `onl` to each room, minus the room named by the sender's id, and `setStatus` exactly when the self-room was empty; the socket is in its rooms and the self-room; the handlers are bound once |
| Relay.Server.AnnounceOnline | backend/src/controllers/socket/index.ts:55-62 | for an empty self-room, one `setStatus(u, true)` and `onl(u)` to each room minus the members of the room named by the sender's id; otherwise nothing |
| Relay.OnlSkipsSenderRoom | backend/src/controllers/socket/index.ts:59-61 | no `onl` of a `join_chat` reaches the joining socket or a socket that sat in the room named by its id |
| Relay.Server.OnMsg | backend/src/controllers/socket/index.ts:65-70 | a chat socket's message goes to every member of the room, the sender included, and is then saved with the same four values |
| Relay.Server.OnCall | backend/src/controllers/socket/index.ts:73-78 | a chat socket's call goes to every member of the room with the fresh uuid; no membership changes |
| Relay.Server.OnDisconnect | backend/src/controllers/socket/index.ts:80-93 | the socket leaves every table; if its user's self-room is now empty, `off` goes to each of the user's rooms and `setStatus(u, false)` is called; otherwise nothing |
| Relay.Server.OnRoomsChange | backend/src/controllers/socket/index.ts:106-122 | `room` goes to the changed room exactly when the participants changed; nothing else changes |
| Relay.Server.OnInvitationsChange | backend/src/controllers/socket/index.ts:133-148 | `inv` goes to the user's self-room exactly when the invitations changed; nothing else changes |
| ChatBox.PageWindow | frontend/src/components/ChatBox/index.tsx:330-336 | the window has skip >= 0 and 0 < limit <= 30, ends exactly where the loaded messages begin, and is a full 30 unless it reaches the first message |
| ChatBox.GetMoreMessages | frontend/src/components/ChatBox/index.tsx:320-336 | no request when hidden, null, empty or all loaded; otherwise the window above |
| ChatBox.PrependPage | frontend/src/components/ChatBox/index.tsx:339-344 | the page comes first and the earlier messages follow unchanged; with no earlier list the page alone |
| ChatBox.ApplyPage | frontend/src/components/ChatBox/index.tsx:337-352 | the page callback prepends the page, takes a truthy conversation length, and shows the meeting or clears it |
| ChatBox.SomeParticipant | frontend/src/components/ChatBox/index.tsx:108-109 | `participants.some(p => p._id === sender)` holds exactly when the sender is a participant |
| ChatBox.ReceiveMessage | frontend/src/components/ChatBox/index.tsx:101-131 | another room's message, or one from a non-member, changes nothing; an accepted one is appended with the earlier list unchanged, and the conversation grows by one |
| ChatBox.PageKeepsSynced | frontend/src/components/ChatBox/index.tsx:330-344 | against a route serving `history[skip..skip+limit]`, each page joins the shown messages without gap or overlap and adds `limit` of them |
| ChatBox.ReceiveKeepsSynced | frontend/src/components/ChatBox/index.tsx:117-127 | an accepted message extends the shown messages exactly as the server history grows |
| ChatBox.ScrollToTopLoadsHistory | frontend/src/components/ChatBox/index.tsx:320-344 | when each page is applied before the next window is computed, paging up from any non-empty newest part of the history ends with the whole history, in order, each message once |

## Left out

- The connection middleware (`verifyTokenViaSocketIO`, which sets the user header) and the transport. Headers arrive as a parameter of `Connect`.
- The users and messages stores (`getRooms`, `setStatus`, `saveMessage`). The result of `getRooms` and the outcome of `setStatus(userId, true)` are parameters; the calls to `setStatus` and `saveMessage` are logged, the call to `getRooms` is not. The MongoDB watcher (`createWatcher`) and its server-side pipeline are also left out; change events are inputs.
- `uuidv4()` in `call`: the uuid is a parameter.
- Interleaving at `await`: each handler runs as one step. Events that reach a socket while `join_chat` waits for `getRooms` or `setStatus` are not modelled.
- Repeated `join_meet` or `join_chat` on one socket registers its handlers again in the source, so later events would be handled once per registration. The model registers each handler set once. A repeated `join_chat` joins the rooms again and keeps the first chat binding.
- ChangeStream.ChangeTarget: the document key is taken to stringify to the document's id. As written, `change.documentKey` is the object `{ _id }`, whose `toString()` is `"[object Object]"`, so the target would be a room nobody joins (not executed).
- Relay.Server.OnRoomsChange: for the same reason, `room` as written goes to the room `"[object Object]"` (index.ts:115-116); the model sends it to the changed room (not executed).
- Relay.Server.OnInvitationsChange: for the same reason, `inv` as written goes to the room `"[object Object]"` (index.ts:142-143); the model sends it to the user's self-room (not executed).
- Relay.Server.OnJoinChat: the model fixes the order of the emits and the order of the store calls, but not the order between the two sequences.
- `console.log` and `console.error` output, which has no effect on state.
- A change event whose `updateDescription` is missing throws inside the `try`. The error is logged and the event ignored; the model has the same effect.
- `extractRooms` and `getMessages` (the fetch, alerts and token removal), `handleReceiveCall`, `handleSendMessage`, `handleMakeCall`, `handleJoinCall`, the initial-load effect and all rendering. The unresolved merge-conflict regions of the component are also left out.
- ChatBox.ApplyPage: a `conversationLength` of 0 stands for every falsy value (0, `undefined`, `NaN`). `NaN` and `undefined` are not modelled.
- ChatBox.GetMoreMessages: the model keeps `conversationLength` across renders. As written, the `let conversationLength` at index.tsx:74 is `undefined` in every render after the first, so the guard `messages.length >= conversationLength` at index.tsx:325 is false and the request asks for limit 30 with skip `NaN` (not executed).
- ChatBox.ScrollToTopLoadsHistory: each page is applied before the next request is made. As written, the request and its callback are asynchronous, so a second `onChange(true)` of the top sensor while a request is pending asks for the same window, and that page is prepended twice (not executed).
- The `.catch` of the page request, which navigates to `/auth` (index.tsx:354-357): navigation is outside the model.
- ChatBox.ReceiveMessage: the handler is registered once per token and keeps the room and participants of that render. The model takes them as parameters.
- ChatBox.PageKeepsSynced: depends on the history route serving `history[skip..skip+limit]`, oldest first. That route is not part of this model, so this is a hypothesis of the lemma.
