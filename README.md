# actix-ws-chat: the chat relay core in Dafny

A model of the chat relay at the heart of actix-ws-chat. Each client holds a
websocket session, which is a `User` actor. Every session announces itself
to one `Chat` actor when it starts and announces its leaving when it stops.
Every text frame a client sends becomes a `MessageSent` event. For each
event, the chat formats one line and pushes it to every user in its vector,
in vector order. There is also an HTTP ingress: `POST /message` turns a body
into a `MessageSent` event authored by the request's `id` cookie, and
`GET /chat` gives a new session its id in that cookie.

Modules, in dependency order:

- `Users` (users.dfy): the `Uuid` newtype, the `User` clone the chat keeps,
  `ChatMessage`, and `User::send`. A connection is the actor address that
  `send` pushes to. A push is recorded as a `Delivery`.
- `Events` (events.dfy): `ChatEvent` and the three line formats. This is its
  own module because `user.rs` and `mod.rs` import each other, and Dafny
  modules cannot.
- `Lines` (lines.dfy): a decoder for broadcast lines. It is the inverse
  partner of the formatter: every line whose identity has no `:` decodes
  back to its event's notice (kind, identity, content), and every line that
  decodes re-renders to itself.
- `ChatService` (chat.dfy): the `Chat` class (`users: seq<User>` plus the
  delivery log `sent`) and its `Handle` method with the broadcast loop. The
  pure functions `Step` and `Run` specify it. The lemmas about them are the
  registry's properties.
- `Sessions` (sessions.dfy): the `User` actor as the class `UserActor`. It
  covers `with_chat`, `started`, `stopping`, the `ChatMessage` handler and
  the inbound-frame dispatch. The events it sends to the chat are recorded
  in `toChat`. The frames it writes to its client are recorded in `toClient`.
- `Server` (server.dfy): `send_message` as a pure decision (an error, or one
  event) and `stream_chat` with its cookie.
- `Traces` (traces.dfy): end-to-end runs. A session's lifecycle, a joiner
  whose client is shown its own join line, an unauthorised post, a post that
  reaches everyone, and a join/message/leave/leave trace.

Behaviour of the code worth noting:

- `UserLeft` does not remove anyone (`src/services/chat/mod.rs:41`).
  `UserJoined` appends with no duplicate check (`src/services/chat/mod.rs:37`).
  So the vector only grows, and its length is the number of joins. A user
  who has left keeps being sent every line, and a user who joined twice gets
  two copies.
- The broadcast goes in vector order, not in an arbitrary order.
- An inbound protocol error is ignored like any other non-text, non-close
  item (`src/services/chat/user.rs:90`). It does not close the session.

## Model

| member | source | states |
|---|---|---|
| `Users.UuidFrom` | src/services/chat/user.rs:29-33 | the displayed string of `Uuid::from(s)` is `s` |
| `Users.UuidRoundTrip` | src/services/chat/user.rs:9-10 | wrapping a string and displaying a `Uuid` are mutually inverse |
| `Users.IntoChatMessage` | src/services/chat/user.rs:23-27 | the `ChatMessage` made from a string carries that string unchanged |
| `Users.User.Send` | src/services/chat/user.rs:44-50 | no delivery without a connection; with one, exactly one delivery to that connection of the unchanged text |
| `Lines.ParseFormatted` | src/services/chat/mod.rs:34-43 | each event's line, when its identity has no ':', decodes to exactly that event's notice (kind, identity, content) |
| `Lines.ParseLineSound` | src/services/chat/mod.rs:36-42 | every string the decoder accepts is exactly the formatted line of what it decodes to |
| `Lines.LinesDistinguishEvents` | src/services/chat/mod.rs:34-43 | two events with colon-free identities and equal lines carry the same kind, identity and content |
| `Lines.HyphenatedUuidColonFree` | src/services/chat/user.rs:38 | ids in the hyphenated UUID form that `with_chat` uses contain no ':', so their lines decode |
| `Lines.MessageLinesAmbiguous` | src/services/chat/mod.rs:42 | two different messages, whose authors contain ": ", format to the same line |
| `ChatService.Chat.constructor` | src/services/chat/mod.rs:7-15 | `Chat::new` has no users and has sent nothing |
| `ChatService.Chat.Handle` | src/services/chat/mod.rs:30-48 | a join appends the joiner and other events leave the users as they were; the new deliveries are the broadcast of the event's line over the new vector; the new state is `Step` of the old |
| `ChatService.BroadcastInbox` | src/services/chat/mod.rs:45-47 | one broadcast gives each address exactly one copy of the line per user connected there, and nothing else |
| `ChatService.BroadcastPerMember` | src/services/chat/mod.rs:45-47 | when all users are connected, the broadcast is one delivery per user, the i-th to the i-th user, all of the same line |
| `ChatService.BroadcastOnlyMembers` | src/services/chat/mod.rs:45-47 | every delivery of a broadcast carries its line to the connection of some user in the vector |
| `ChatService.BroadcastReaches` | src/services/chat/mod.rs:45-47 | every connected user in the vector is sent the line |
| `ChatService.StepJoined` | src/services/chat/mod.rs:35-39 | a join appends the user after the unchanged earlier users; the joiner's own copy of the join line is the last delivery |
| `ChatService.StepLeft` | src/services/chat/mod.rs:41 | a leave changes no user and sends `id + " left the chat"` to every connected user, including any with that id |
| `ChatService.StepMessage` | src/services/chat/mod.rs:42 | a message changes no user and sends `author + ": " + content` to every connected user, the author included |
| `ChatService.StepInbox` | src/services/chat/mod.rs:34-47 | to each address, one event adds exactly as many copies of its one line as users connected there, and nothing else |
| `ChatService.RunUsers` | src/services/chat/mod.rs:35-43 | after any events, the users are the initial ones followed by every joiner, in order |
| `ChatService.MembersCountJoins` | src/services/chat/mod.rs:7-43 | from `Chat::new`, the number of users equals the number of `UserJoined` events handled |
| `ChatService.RunGrows` | src/services/chat/mod.rs:35-47 | the old users and the old deliveries are prefixes of the new ones: nobody is removed and nothing is taken back |
| `ChatService.MembersNeverDecrease` | src/services/chat/mod.rs:35-43 | handling more events never shortens the user vector or changes its earlier part |
| `ChatService.RunKeepsConnected` | src/services/chat/mod.rs:37 | if every joiner carries a connection, every user in the vector has one |
| `Sessions.InboundEvents` | src/services/chat/user.rs:81-91 | only a text frame produces an event, exactly one `MessageSent` with this user's id and the frame's text |
| `Sessions.UserActor.WithChat` | src/services/chat/user.rs:36-41 | a new session has the supplied fresh id, no connection, and has sent and written nothing |
| `Sessions.UserActor.Started` | src/services/chat/user.rs:60-63 | the connection becomes the actor's own address first; exactly one `UserJoined` is sent, carrying a clone with that connection and the same id |
| `Sessions.UserActor.Stopping` | src/services/chat/user.rs:65-68 | exactly one `UserLeft` with the session's own id is sent, and the answer is `Stop` |
| `Sessions.UserActor.HandleChatMessage` | src/services/chat/user.rs:71-77 | the pushed text is written to the client unchanged, and nothing else changes |
| `Sessions.UserActor.HandleStream` | src/services/chat/user.rs:79-93 | text gives one `MessageSent`; close writes a close frame with the same reason, stops the session and sends no event; anything else changes nothing |
| `Sessions.SendReachesClient` | src/services/chat/user.rs:44-77 | a push to a session's clone goes nowhere before `started`; after it, the push goes to the session's own address, and handling that message writes exactly the unchanged text to its client |
| `Server.SendMessage` | src/main.rs:45-61 | no `id` cookie: Unauthorized and no event; otherwise exactly one `MessageSent` authored by the cookie value with the body as content |
| `Server.SessionCookie` | src/main.rs:35-40 | the cookie is named `id`, holds exactly the id, has path `/` and is http-only |
| `Server.CookieIdentifiesSession` | src/main.rs:31-58 | a post carrying the cookie a session was given is credited to that session's id |
| `Server.HttpResponse.AddCookie` | src/main.rs:35 | the cookie is appended to the response's cookies |
| `Server.StreamChat` | src/main.rs:25-43 | a fresh session without a connection; on a successful handshake the response gains exactly the session cookie; a failed handshake is passed on untouched |
| `Traces.UnauthorizedPostChangesNothing` | src/main.rs:51-53 | a post without a cookie is rejected and leaves the chat's users and deliveries exactly as they were |
| `Traces.AuthorizedPostReachesEveryone` | src/main.rs:55-60 | a post with cookie `v` leaves the users as they are and reaches every connected user as `v: message` |
| `Traces.FirstJoinReachesOnlyTheJoiner` | src/services/chat/mod.rs:35-47 | the first joiner is the only user and the only recipient of its own join line |
| `Traces.JoinerHearsOwnJoin` | src/services/chat/user.rs:60-77 | a started session's join, handled by a new chat, makes the chat's one user that session and its log one delivery of the join line; handing that delivery to the session shows exactly that line to its client |
| `Traces.SessionLifecycle` | src/services/chat/user.rs:60-93 | started, then ping, text, protocol error, close, then stopping: the session sends exactly a join, its message and a leave, and writes one close frame |
| `Traces.JoinPostLeaveTrace` | src/services/chat/mod.rs:30-48 | two joins, a message, then two leaves of the first user give the exact delivery log; both users stay, and the second leave repeats the leave line |

## Left out

- The actix runtime is not modelled: mailboxes, the asynchrony of `do_send`, actor scheduling, and `Addr`/`Recipient` addressing. Events are handled by sequential calls. An address is a number.
- Delivery to a stopped actor is not modelled. Such deliveries stay in the log, because the runtime, not the code shown, decides what happens to them.
- UUID generation (`src/services/chat/user.rs:38`) is randomness from a library. The fresh id is a parameter of `WithChat`. Ids are not assumed unique, because the code never checks.
- Websocket framing, the internals of `ctx.text`, `ctx.close` and `ctx.stop`, and `ws::start` are not modelled. The handshake outcome is a parameter of `StreamChat`. A stop request is a flag. `stopping` is a method that the runtime is assumed to call.
- The `chat: Addr<Chat>` field of `User` is not modelled: there is one chat, and events a session sends are recorded in `toChat`.
- `ws::Message::Continuation` carries bytes instead of the library's fragment item. It is ignored either way.
- The HTTP server, route macros, port binding, serving `index.html`, and `main` are not modelled (`src/main.rs:20-23`, `src/main.rs:63-75`).
- Cookie parsing is not modelled. A request is reduced to the value of its `id` cookie, if it has one.
- `Server.SendMessage`: the response body of the `Ok` case is not modelled. `Accepted` stands for `Ok(HttpResponse::Ok())`.
- `Server.StreamChat`: always appends the cookie. In `src/main.rs:35-40` the `Result` of `add_cookie` is discarded, so a value the header encoder refused would leave the response without it. That failure is not modelled, because `with_chat` ids are hyphenated UUIDs (`src/services/chat/user.rs:38`), which the encoder accepts.
