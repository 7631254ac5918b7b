# WebSocket chat relay: routing and envelope model

A model of a small chat relay made of two programs. The server keeps the set
of connected WebSocket clients. Every frame a client sends is parsed as JSON.
If its `event` is `'message'` or `'connection'`, the server forwards the
whole parsed value to every other open client. Console input typed at the
server goes to every open client. The console client announces itself when it
connects, sends each chunk of console input (which may hold several lines or part of one) as a trimmed `message` envelope, and prints
the `message` field of each recognised envelope it receives.

Modules:

- `Json` (json.dfy): the values `JSON.parse` yields, and JavaScript's
  property read `v.key`, which throws on `null`. Only keys that no
  prototype defines are modelled, such as `"event"` and `"message"`, the
  two the programs read. Keys like `length` or `toString` are not.
- `Text` (text.dfy): `String.prototype.trim` over the ECMAScript white-space
  and line-terminator code points.
- `Envelope` (envelope.dfy): the `{event, message}` envelope, the two
  recognised kinds, the shared `event === ...` test (`Classify`), and whether
  a template literal can turn a value into text (`Printable`).
- `Server` (server.dfy): clients as `Peer` values (identity, `readyState`,
  the frames sent to them). `Fanout` is the broadcast as a function. The
  `Registry` class holds the clients. Its `Broadcast` method is the
  `forEach` loop, proved equal to `Fanout`. `Dispatch` is the message
  handler's decision.
- `Client` (client.dfy): the client's three handlers, plus lemmas that tie
  the client to the relay.

`JSON.parse` and `JSON.stringify` are not modelled. Each handler receives
them as parameters: `parse: string -> Option<Json>` (None when parsing
throws) and `encode: Json -> string`. The lemmas that follow a frame from one
program to the other assume that parsing an encoded envelope gives it back.

Notes on the code:

- The code calls `JSON.stringify` once per recipient, inside the loop, not
  once per broadcast. The payload is still the same for every recipient.
- No send is wrapped in its own error handler.
- Clients are never removed from the registry by the code itself. The `ws`
  library does that.
- In the client, the `catch` also covers printing. `${parsedMessage.message}`
  throws when the message is an object with its own `"toString"` member, or
  an array that holds such an object. Such a frame is logged and not shown
  (`Envelope.Printable`, `Client.OnIncoming`).

## Model

| member | source | states |
|---|---|---|
| `Json.Lookup` | server.js:22 | reading a key from a parsed object finds it exactly when some member has that key, and yields the last such member's value |
| `Json.Member` | server.js:22 | for a key no prototype defines (`event`, `message`), a property read throws exactly on `null`; a value it yields is the value of the last member with that key, as with duplicate keys in `JSON.parse`; an object member with that key is always found |
| `Text.Trim` | server.js:51 | the trimmed text has no white space at either end, and it is a contiguous slice of the input with only white space cut on both sides |
| `Text.TrimKeepsTrimmed` | server.js:51 | text with no white space at either end is left unchanged by `trim` |
| `Text.TrimIdempotent` | client.js:40 | trimming twice is the same as trimming once |
| `Text.TrimAllWhite` | client.js:40 | a chunk made only of white space becomes the empty message |
| `Envelope.Make` | client.js:14-17 | the built object's `event` reads as the kind's name and its `message` reads as the given text |
| `Envelope.TextMessage` | server.js:49-52 | a chunk of console input becomes an envelope whose `event` is `'message'` and whose `message` is the trimmed chunk, with no white space at either end |
| `Envelope.Classify` | server.js:22-29 | a value is recognised as kind k exactly when its `event` is the string naming k; classifying throws exactly on `null` |
| `Envelope.Printable` | client.js:25 | a value converts to text unless it is an object with its own `toString` member, or an array holding an element that cannot convert |
| `Envelope.MakeIsRecognised` | client.js:24 | every envelope built by either program is recognised as its own kind and can be printed |
| `Server.Fanout` | server.js:40-46 | the broadcast yields one entry per client, in the registry's order |
| `Server.FanoutAt` | server.js:41-45 | each client's entry after the broadcast depends only on that client, the sender and the payload |
| `Server.FanoutDelivers` | server.js:41-45 | every open client other than the sender gets exactly one copy of the same payload, appended after its earlier frames; every other client is left exactly as it was |
| `Server.FanoutKeepsMembers` | server.js:40-46 | a broadcast changes no client's identity or state, keeps membership and order, and keeps identities distinct |
| `Server.SenderExcluded` | server.js:42 | the client whose identity is the sender's is left unchanged: it never receives its own broadcast |
| `Server.OnlySenderSkipped` | server.js:42 | in a registry of distinct sockets, the sender is a single client: every other open client receives exactly one copy |
| `Server.NoSenderReachesAllOpen` | server.js:53 | with no sender (`null`), every open client receives the payload exactly once, and no connecting, closing or closed client receives anything |
| `Server.SameSenderInOrder` | server.js:40-46 | two broadcasts from the same sender reach each recipient in the order they were made |
| `Server.Dispatch` | server.js:19-33 | a frame is forwarded exactly when it parses to a value with a recognised `event`, and then it is the whole parsed value from the receiving socket; it is logged exactly when parsing fails or yields `null`; it is dropped exactly when the `event` is something else |
| `Server.AfterFrame` | server.js:19-33 | a frame that is not forwarded changes nothing. No frame changes any client's identity or state, or the sending client's own entry, so a bad frame closes no connection |
| `Server.ForwardCarriesWholeValue` | server.js:21-28 | a forwarded frame reaches each other open client as the encoding of the whole parsed value, extra members included |
| `Server.FanoutExtend` | server.js:41-45 | handling client i in place extends the broadcast of the clients before i by that client's step |
| `Server.Registry.constructor` | server.js:12 | the registry starts with the given clients, each with its own identity |
| `Server.Registry.Broadcast` | server.js:40-46 | the loop over the clients leaves the registry equal to `Fanout` of the old clients, and identities stay distinct |
| `Server.Registry.OnFrame` | server.js:19-33 | the handler's outcome is `Dispatch` of the parsed frame, and the new registry is `AfterFrame` of the old one |
| `Server.Registry.OnOperatorInput` | server.js:48-54 | a chunk of console input is broadcast with no sender as the trimmed `message` envelope |
| `Client.OnOpen` | client.js:12-19 | on open the client sends exactly one envelope: a recognised `connection` whose `message` is the fixed announcement text |
| `Client.OnIncoming` | client.js:21-30 | something is shown only for a recognised envelope, and it is that envelope's `message`. A recognised envelope whose message can be printed is always shown, and nothing unprintable is ever shown. It is logged exactly when parsing fails, the value is `null`, or a recognised envelope's message cannot be printed. An unknown event is ignored exactly when one is parsed |
| `Client.OnInput` | client.js:37-43 | a chunk of typed input is sent as a recognised `message` envelope carrying the trimmed chunk, which is a fixed point of trimming |
| `Client.SameFilterBothEnds` | client.js:24 | the relay forwards a parsed value exactly when a client would not ignore it; both ignore the same unknown events; whatever the relay logs, the client logs too |
| `Client.TypedLineReachesOthers` | client.js:37-43 | if the printer and parser round-trip the envelope, a chunk of typed input is forwarded by the relay from its sender and shown trimmed by a receiving client |
| `Client.AnnouncementReachesOthers` | client.js:12-19 | if the printer and parser round-trip the announcement, the relay forwards it and a receiving client shows the announcement text |

## Left out

- `JSON.parse` and `JSON.stringify` are not modelled. They are function parameters, and any round trip is a hypothesis of the lemma that needs it.
- Converting the received bytes to text (`data.toString()`, frames as `Buffer`) is left out. Frames and console input chunks are strings.
- JSON numbers are `real` values. Floating point is not modelled, and a number's text form never matters to the relay.
- Printed text is not modelled. `Client.Reaction.Show` carries the value that would be printed, not its string form.
- `console` logging, startup messages, argument checks and exit codes (server.js:3-14, client.js:3-10) are left out. So is the client's `error` handler (client.js:32-34), which only logs.
- Accepting connections, `readyState` changes and membership of `server.clients` are done by the `ws` library. They are inputs to the model. The server's `close` handler (server.js:35-37) only logs.
- `Json.Member` models only keys that no prototype defines. Inherited properties such as `length` or `toString` are not modelled, because neither program reads them through a property read.
- Socket identity (`client !== sender`) is modelled as a distinct `PeerId` per client. Aliasing between socket objects is not modelled.
- Concurrency, event-loop interleaving, backpressure and send failures are left out. Each broadcast is one sequential loop over the registry as it was when the call began.
- Neither program isolates send errors, removes a client on close or has an HTTP or database message source.
- server.test.js builds its own server and never loads server.js, so nothing in it is modelled.
