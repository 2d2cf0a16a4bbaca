# syndicate-chat server: a Dafny model of its connection handlers

The chat server keeps two pieces of process-wide state: a chat history per
channel, and a map of who is typing. Each connection handler reads or updates that state or
the socket's own fields, then emits at most one event. An event goes either to
the requesting socket only (`socket.emit`) or to every socket but the sender
(`socket.broadcast.emit`).
This project models that state and the six handlers in Dafny, and proves what
each handler does to the state and who it sends to.

- `messages.dfy` (module `Messages`) holds the inbound payloads. A payload is a
  map of named string fields. A field the client did not send reads as `None`,
  which stands for JavaScript's `undefined`. The module also defines `Stamp`,
  which builds the server-side completed message `{ ...msg, timestamp }`.
- `history.dfy` (module `History`) holds `MAX_HISTORY` (100) and
  `AppendBounded`, the push-then-shift rule. It also defines `Feed`, which
  applies that rule to a stream of messages, and `Newest`, the reference
  definition "the newest 100 messages of the stream". Its lemmas prove that
  the two agree, and the FIFO eviction property.
- `server.dfy` (module `Server`) holds the `ChatServer` class. Its fields are
  `history` (the four initial channels), `typing` (socket id to
  `{username, channel}`), `sessions` (the `username`/`rank` stored on each
  socket) and `outbox`. The outbox is an append-only record of every emitted
  event, tagged `ToOnly(id)` or `ToAllExcept(id)`. There is one method per
  `socket.on` handler. `Valid()` says the channels are exactly the initial four
  and none holds more than 100 messages; every handler preserves it. Three
  client methods show what a caller can conclude from the contracts alone.

Behaviour of the code worth noting:
- Channels are never created lazily. A chat message whose channel is missing
  or is not one of the four initial channels throws at `server.js:49` before
  anything is stored or broadcast. `ChatMessage` returns `stored == false` in
  that case and changes nothing.
- Switching to an unknown channel sends `history: undefined` (`None`), not an
  empty history.
- A typing event is recorded even when the socket's user never joined. Its
  entry then has no username.
- "stopped typing" and "disconnect" broadcast the typing map even when the
  socket had no entry.

## Model

| member | source | states |
|---|---|---|
| Messages.Stamp | server.js:44-46 | The completed message has every incoming field unchanged, plus a `timestamp` field holding the receipt time; a client-sent `timestamp` is overridden. |
| History.AppendBounded | server.js:49-52 | The new message is last. Below capacity, the entries before it are the old history unchanged. At capacity, they are the old history minus its oldest entry. At most one entry is evicted, and a history of at most 100 stays at most 100. |
| History.Feed | server.js:49-52 | Handling any stream of messages keeps a history of at most 100 at most 100, and the last message of the stream ends up newest. |
| History.FeedKeepsNewest | server.js:49-52 | Appending messages one by one with eviction leaves exactly the newest 100 messages of the old history followed by the stream, in arrival order. |
| History.FifoEviction | server.js:50-51 | After 101 messages reach an empty channel, the history is messages 2..101 in order. The 101st is newest, and the first is gone when it was distinct from the rest. |
| Server.ChatServer.constructor | server.js:16-25 | The server starts with the four channels `general`, `operations`, `intel-drops` and `proof-of-work`, all empty. The typing map, the socket fields and the outbox start empty. |
| Server.ChatServer.HistoryOf | server.js:16-21 | A channel's history is defined exactly when the channel is one of the four initial channels, and then it is that channel's stored history. |
| Server.ChatServer.UserJoined | server.js:31-35 | Stores the payload's `alias` and `rank` on the socket. Sends that socket alone the `general` history. History and typing state are unchanged. |
| Server.ChatServer.SwitchChannel | server.js:38-40 | Sends the requesting socket alone the named channel's history (`None` unless it is an initial channel). Nothing else changes. |
| Server.ChatServer.ChatMessage | server.js:43-56 | For a known channel, it appends the stamped message to that channel with bounded eviction, leaves every other channel unchanged and broadcasts the stamped message to all sockets but the sender. A missing or unknown channel fails with no state change and no event. Typing state is never touched. |
| Server.ChatServer.UserTyping | server.js:59-63 | Sets the sender's entry to its stored username (possibly unset) and the payload's channel. Leaves every other entry unchanged. Broadcasts the whole new map to all sockets but the sender. |
| Server.ChatServer.StoppedTyping | server.js:66-69 | Removes only the sender's entry; it is a no-op when there is none. Always broadcasts the resulting map to all sockets but the sender. |
| Server.ChatServer.Disconnect | server.js:72-77 | Removes only the sender's typing entry; it is a no-op when there is none. Always broadcasts the resulting map to all sockets but the sender. |
| Server.GeneralChatScenario | server.js:43-56 | On a fresh server, a "hi" to `general` yields one event that reaches the other socket and not the sender. The event carries the channel, the body and the timestamp, and the message is the channel's only entry. |
| Server.FifoScenario | server.js:49-52 | On a fresh server, 101 messages posted to `general` leave it holding exactly the stamped messages 2..101, in arrival order. |
| Server.TypingScenario | server.js:59-69 | A socket that never joined starts typing and then stops. The first broadcast holds its entry with no username. The second holds the empty map. Both skip the typist, and the typing map ends empty. |

## Left out

- The HTTP route and `res.sendFile` (`server.js:11-13`), server creation and `listen` on port 3000 (`server.js:5-8`, `80-82`) and all `console.log` calls: bootstrap and I/O.
- Socket transport and delivery: each `emit` / `broadcast.emit` is recorded as an `Emission` in the outbox. Which sockets are connected is not tracked; `Reaches` says whom a target addresses.
- The 'connection' event itself: apart from logging, it only registers the handlers.
- Wall-clock time and its locale formatting (`server.js:45`): the timestamp is an opaque string parameter.
- Interleaving across connections: the handlers are synchronous, so events are a sequence of method calls.
- Aliasing: the source emits the live history array and the live typing object. The model emits a copy of their value at emission time.
- Key order: the insertion order of keys in the typing object and in the completed message is not modelled (maps are unordered).
- Payloads that are not flat objects of strings (missing payloads, numbers, nested objects), and channel names that hit inherited object properties such as `constructor`.
- Server.ChatServer.ChatMessage: for a missing or unknown channel, the TypeError thrown at `server.js:49` is not caught anywhere in the handler and escapes it. `stored == false` stands for that uncaught exception; the program returns no error value. What the runtime then does with the exception is not modelled. The model only records that nothing is stored or sent.
- Registration, login, password hashing, the user directory, presence and invites: they do not exist in this code.
