# chat-me real-time core in Dafny

This project models the real-time core of the chat-me two-party chat product. There are two sides.

- **The server relay** (`server/socket-handler.js`) is modelled in `relay.dfy`, module `Relay`. It holds:
  - the presence registry (the module-level `users` map);
  - the identity rooms of the socket.io adapter;
  - the message, typing and seen handlers over a message store;
  - the stateless call-signalling relay (`callUser`, `offer`, `answer`, `iceCandidate`, `hangUp`);
  - the initial synchronisation of a new connection (`getMessages`, `getUsers`, `initialData`).
- **The client chat view** (`web/src/views/Chat.js`) is modelled in `chat.dfy`, module `ChatView`, class `Chat`, with its pure list logic in `chat_messages.dfy`, module `ChatMessages`. It holds:
  - the call state machine `idle | calling | receiving | inCall`;
  - the caller information, the contact, the peer connection, the streams and the buffered offer;
  - the socket handlers and user actions that drive them;
  - the message-list handlers.

The shared records (identities, messages, presence values) are in `protocol.dfy`, module `Protocol`. `consistency.dfy`, module `Consistency`, states how the client's seen-marking agrees with the server's bulk update.

How the state is represented:
- **Server.** The `Server` class has fields for the registry, the rooms (identity → set of connection ids), the store (a sequence of records), an output log of `Emission(audience, event)` records, and the set of connections it forced closed.
- **Client.** The `Chat` class has one field per piece of component state. Socket emits are appended to `sent`. Calls into the peer connection and the local stream are appended to `media`.
- **Promises.** Each promise the client waits on is an entry of `tasks`, holding the values its continuation captured. A `Resolve…` method runs that continuation. `FailTask` stands for the `.catch` handlers, which only log.

Parameters stand for inputs from outside the model:
- the current time (`now`);
- whether a store write or read succeeds (`writeOk`, `readOk`);
- the user collection (`db`);
- the media stream and peer-connection handles a completion returns;
- the descriptions and candidates WebRTC produces.

The model follows the code, including where its behaviour is surprising:
- A failed microphone request only logs. The state is not returned to `idle` (`FailTask`).
- Continuations that run after media is granted do not check that the call is still wanted. `LateMediaScenario` shows a view left `idle` that still holds a stream and a peer connection.
- `acceptCall` enters `inCall` at once, before any offer is answered.
- An inbound `answer` is applied in any state, as long as a peer connection exists.
- A second `incomingCall` overwrites the caller information.
- The relayed message record has no `seen` field, which a client reads as false. It is modelled as `seen == false`.
- Presence uses the literal room tests:
  - on connect, "room absent or of size 1";
  - on disconnect, "room absent or of size < 1".

  The model assumes the in-memory adapter of socket.io 2.x, which the code's `adapter.rooms[id]` and `.length` lookups are written against. That adapter leaves a socket's rooms before `disconnect` fires and deletes a room once it is empty, so on disconnect the absent room is the last-connection case. Under socket.io 3.x and later, `rooms` is a `Map` and the lookup is always absent, so every connect and every disconnect would broadcast; that version is not modelled.

## Model

| member | source | states |
|---|---|---|
| Protocol.Conversation | server/socket-handler.js:262-265 | exactly the messages the user sent or received, each as often as in the store, and no more messages than the store holds |
| Protocol.ConversationAppend | web/src/views/Chat.js:490-492 | the selection keeps list order: selecting from a concatenation is the concatenation of the selections |
| Relay.GetUsers | server/socket-handler.js:272-275 | every user record except the caller's own appears, only as a password-free profile, and every returned profile comes from the user collection |
| Relay.GetUsersCounts | server/socket-handler.js:272-275 | each other user's profile appears exactly as often as the collection holds it, and the caller's never |
| Relay.MarkSeen | server/socket-handler.js:253-254 | length preserved; exactly the records with this sender, this receiver and `seen == false` become seen, all others are unchanged |
| Relay.Forward | server/socket-handler.js:71-151 | each call event goes only to the room its target names, its payload is recoverable unchanged, and every reply except `hangUp` is stamped with the sender's id |
| Relay.MessageReach | server/socket-handler.js:226 | `socket.to(receiver).to(sender)` reaches every connection of the receiver and every other connection of the sender, once, and never the sending connection |
| Relay.Server.constructor | server/socket-handler.js:21 | empty registry, rooms, store and output |
| Relay.Server.OnSocketConnected | server/socket-handler.js:169-183 | no bound user: nothing changes; otherwise the connection joins its identity room, the identity is online, and `user_status {id: true}` goes to everyone exactly when the room lookup is absent or of size 1, i.e. exactly on a first connection |
| Relay.Server.OnSocketDisconnected | server/socket-handler.js:189-203 | the connection leaves its rooms; with a bound user whose room is now absent or empty, the registry records the timestamp and `user_status {id: timestamp}` goes to everyone; otherwise registry and output are unchanged; the registry stays online exactly for identities with a room |
| Relay.Server.OnMessage | server/socket-handler.js:210-227 | no bound user: nothing; otherwise the record `{sender, receiver, content, date}` is stored if the write succeeds and relayed either way to both identity rooms except the sending connection |
| Relay.Server.OnTyping | server/socket-handler.js:234-241 | no bound user: nothing; otherwise only the sender id, only to the receiver's room |
| Relay.Server.OnSeen | server/socket-handler.js:248-255 | no bound user or a failed write: store unchanged; otherwise the bulk seen update with the caller as receiver |
| Relay.Server.OnCallSignal | server/socket-handler.js:71-151 | no bound user: nothing; otherwise exactly the relay-table emit for the signal |
| Relay.Server.InitialData | server/socket-handler.js:281-300 | no bound user: nothing; read success: one `data(user, contacts, messages, users)` to the connection and nothing else changes; read failure: the connection is closed, leaves its rooms, and when no connection of the identity remains the registry records the timestamp and `user_status {id: timestamp}` goes to everyone; the registry stays online exactly for identities with a room |
| Relay.Server.OnConnection | server/socket-handler.js:31-69 | registration runs before initial data, so the presence snapshot sent shows the new connection's identity online and its connection in the room; on success the registry, rooms and closed set are the connect step's, and the output is the connect broadcast (first connection only) followed by the data emit; when the reads fail the connection ends closed and in no room, an identity with no other connection is announced online and then last seen, and otherwise registry and output are unchanged |
| Relay.PresenceScenario | server/socket-handler.js:175-201 | two connections of one identity open and close: exactly one online and one last-seen broadcast |
| Relay.MessageScenario | server/socket-handler.js:215-226 | a message sent on one of the sender's two connections reaches the other one and the receiver's connection, and is stored unseen |
| ChatMessages.WithStatus | web/src/views/Chat.js:379 | a contact keeps id and name and takes the presence entry for its id exactly when that entry is truthy |
| ChatMessages.MarkSeenFrom | web/src/views/Chat.js:500-505 | length preserved; exactly the messages whose sender is the chosen contact become seen, all others unchanged |
| ChatMessages.CallerName | web/src/views/Chat.js:171 | the username when present and non-empty, `'Unknown Caller'` otherwise; never empty |
| ChatView.PeerId | web/src/views/Chat.js:310 | `contact.id` when set, else the caller's id, absent only when both are |
| ChatView.Chat.constructor | web/src/views/Chat.js:20-45 | the initial component state: `idle`, no caller, no streams, no peer connection, no buffered offer |
| ChatView.Chat.OnConnect | web/src/views/Chat.js:59-62 | marks the socket connected |
| ChatView.Chat.OnDisconnect | web/src/views/Chat.js:63-66 | marks the socket disconnected |
| ChatView.Chat.OnIncomingCall | web/src/views/Chat.js:74-93 | `receiving`, modal open, caller stored; the contact takes the caller's id and name when its id differs |
| ChatView.Chat.OnOffer | web/src/views/Chat.js:96-106 | without a peer connection the offer is buffered, replacing any earlier one, and nothing is sent or applied; with one it goes to `handleOffer` |
| ChatView.Chat.HandleOffer | web/src/views/Chat.js:138-141 | the offer is applied to the current peer connection and an answer is awaited for that caller |
| ChatView.Chat.ResolveAnswerCreation | web/src/views/Chat.js:142-155 | with a peer connection, the answer is set locally, sent to the caller, and the state is `inCall`; without one nothing but the task changes |
| ChatView.Chat.OnAnswer | web/src/views/Chat.js:108-112 | ignored without a peer connection, never buffered; otherwise applied and awaited |
| ChatView.Chat.ResolveAnswerApplied | web/src/views/Chat.js:113-116 | only a successfully applied answer sets `inCall` |
| ChatView.Chat.OnIceCandidate | web/src/views/Chat.js:121-127 | added only with a peer connection and a present candidate; otherwise dropped |
| ChatView.Chat.OnHangUp | web/src/views/Chat.js:129-132 | the peer's hang-up runs the full `endCall` teardown |
| ChatView.Chat.InitiateCall | web/src/views/Chat.js:159-172 | a contact without id changes nothing; otherwise `calling`, the contact is stored and `callUser` with the caller name goes out before the microphone is requested |
| ChatView.Chat.ResolveCallerMedia | web/src/views/Chat.js:176-201 | stream kept, tracks added to the new peer connection, offer creation started for the called contact, peer connection installed |
| ChatView.Chat.ResolveOfferCreation | web/src/views/Chat.js:189-198 | the offer is set on the connection it was created for and sent to the called contact |
| ChatView.Chat.AcceptCall | web/src/views/Chat.js:206-225 | modal closed, `inCall`, the contact takes the caller's id and name when it differs, microphone requested |
| ChatView.Chat.ResolveCalleeMedia | web/src/views/Chat.js:226-245 | peer connection installed; a buffered offer is handed to `handleOffer` exactly once and the buffer is cleared |
| ChatView.Chat.RejectCall | web/src/views/Chat.js:250-260 | `idle`, caller and buffered offer cleared, modal closed, nothing sent |
| ChatView.Chat.EndCall | web/src/views/Chat.js:307-339 | `hangUp` to `contact.id || callerInfo.from` only from `calling` or `inCall`; peer connection closed and microphone stopped when present; ends `idle` with every call field cleared |
| ChatView.Chat.FailTask | web/src/views/Chat.js:203 | a failed promise is only logged: nothing but the task list changes |
| ChatView.Chat.OnLocalIceCandidate | web/src/views/Chat.js:273-286 | a gathered candidate goes to `contact.id || callerInfo.from`; end of gathering sends nothing |
| ChatView.Chat.OnRemoteTrack | web/src/views/Chat.js:289-292 | the remote stream is stored |
| ChatView.Chat.OnConnectionStateChange | web/src/views/Chat.js:295-302 | disconnected, failed or closed runs the teardown; other states change nothing |
| ChatView.Chat.OnData | web/src/views/Chat.js:342-348 | messages, contacts and user stored, the first contact (or none) opened, then presence applied |
| ChatView.Chat.UpdateUsersState | web/src/views/Chat.js:376-385 | every contact in place, and the open contact, take their truthy presence entry; the list keeps its length |
| ChatView.Chat.OnNewMessage | web/src/views/Chat.js:350-358 | a message from the open contact clears typing, emits `seen` and is appended seen; others are appended unchanged |
| ChatView.Chat.OnTypingMessage | web/src/views/Chat.js:360-366 | only the open contact's typing is shown |
| ChatView.Chat.SendMessage | web/src/views/Chat.js:387-393 | no open contact: nothing; otherwise addressed to it, appended and sent |
| ChatView.Chat.SendType | web/src/views/Chat.js:395-399 | a typing notice to the open contact, if any |
| ChatView.Chat.OnChatNavigate | web/src/views/Chat.js:496-507 | the contact is opened, `seen` is emitted, and its messages are marked seen |
| ChatView.Chat.RenderChat | web/src/views/Chat.js:487-494 | nothing without an open contact; otherwise exactly the messages it sent or received, each as often as in the list, no more than the list holds; the order is the list's, by `Protocol.ConversationAppend` |
| ChatView.OfferRaceScenario | web/src/views/Chat.js:239-245 | an offer buffered while `receiving` is answered after the microphone is granted: `inCall`, exactly one answer sent, buffer empty |
| ChatView.FailedCallScenario | web/src/views/Chat.js:295-316 | a failed peer connection in `inCall` ends `idle` with the microphone stopped and one `hangUp`; a duplicate hang-up afterwards sends nothing |
| ChatView.LateMediaScenario | web/src/views/Chat.js:174-201 | hanging up before the microphone is granted still leaves the stream and a peer connection installed in `idle` |
| Consistency.ClientMarkingIsServerUpdate | server/socket-handler.js:253-254 | on a message list that all involves the user, the client's marking of a contact's messages equals the server's bulk update |
| Consistency.SeenUpdateCommutesWithSync | web/src/views/Chat.js:496-507 | marking seen on the client gives the list that initial sync would send from the updated store |

## Left out

- React rendering, the incoming-call modal's markup, the `<audio>` element and the profile toggles are UI. Only the `incomingCallModal` flag is kept.
- `onSocketError`, `logout`, `Auth` and router navigation are outside the call and message logic.
- The three-second typing timer in `onTypingMessage` is a clock. The model sets the typing mark and never clears it on a timeout.
- WebRTC internals are left out: `RTCPeerConnection`, `getUserMedia`, session descriptions and candidates are opaque values and handles. Completion methods receive them, and the model does not require a handle to be fresh.
- `ChatView.Chat.ResolveAnswerCreation`: `handleOffer` reads the peer connection at two promise steps. The model checks it once, at the final step.
- Every `setState` call is treated as taking effect at once, and each handler or continuation runs atomically. React's batching is not modelled.
- In the source, `onNewMessage` sets `seen` on the received object in place, `sendMessage` sets `receiver` on the form's object in place, and `contact` aliases `contacts[0]`. The model works on copies, so it does not capture that aliasing.
- The socket.io transport is left out: the `auth.socket` middleware (a socket arrives with its user bound or not), the room each socket has under its own id, the set of sockets an `io.emit` to everyone reaches, and the transport itself.
- `Relay.Server.OnSocketDisconnected`, `Relay.Server.InitialData` and `Relay.Server.OnConnection` require that the connection sits in no room but its own identity's. The transport never rebinds a socket to another user, and a new connection has joined no identity room.
- A hang-up, ICE candidate or `seen` that the client sends without a target (`HangUpOut`, `IceOut`, `SeenOut` carrying `None`) has no counterpart on the server side: `Relay.CallSignal` and `Relay.Server.OnSeen` take a present identity. In the source `io.to(undefined)` reaches nobody; what the store does with an undefined sender in the seen update is the database's behaviour. The model does not represent either case.
- `initialData`'s two reads and its emit happen later than the `connection` handler returns; the model runs them at once, so the presence snapshot is the one at connect time.
- `Relay.Server.InitialData` stands only for the step straight after the connect, while the connection is still open. In socket.io 2.x `socket.disconnect()` does nothing on a connection that has already closed, so a read that fails after the client left sends no second last-seen broadcast; the model, which runs the forced close unconditionally, does not capture that interleaving.
- Mongoose persistence is an in-memory sequence. `Message.create`, `updateMany`, `find` and the order the database returns are abstracted. Whether a write or read fails is a parameter.
- `Protocol.Conversation`: its own contract states membership with multiplicity; the order is stated separately by `Protocol.ConversationAppend`. On the server side the order is the database's, which is not modelled.
- Concurrency between connections and promise interleavings other than the explicit sequence of method calls are not modelled.
- `server/app.js`, `server/controllers/authController.js`, `web/src/views/Login.js`, `web/src/views/Register.js` and `web/src/components/side/EditProfile.js` are HTTP and form plumbing. `web/src/components/chat/ChatHeader.js`, `web/src/components/side/UserProfile.js` and `web/src/components/chat/ContactHeader.js` are presentational. None of them is part of this model.
