# A verified model of the rtc-chat signalling relay

The relay in `server/index.js` is a WebSocket server. It lets two named
participants exchange WebRTC session-negotiation messages: offers, answers
and ICE candidates. It keeps one module-level object, `users`, that maps a
chosen name to a connection. Each connection object carries its own mutable
`name` and `id`. Three events drive the relay:

- **connection**: the server greets the new socket;
- **message**: the JSON text is decoded and dispatched on its `type`:
  - `login` registers the sender, answers it with the list of users already
    present, and announces it to the others;
  - `offer`, `answer` and `candidate` are forwarded to the connection
    registered under `name`, or answered with an error;
  - `leave` announces the sender's departure;
  - any other `type` is answered with "Command not found";
- **close**: the connection's name is deleted from `users`, and its departure
  is announced.

The model has these layers:

- `Protocol` (protocol.dfy): the wire protocol. A decoded message is
  `Inbound`, and every frame the server sends is an `Envelope`. Absent JSON
  fields are `None`, and JavaScript's conversion of `undefined` to a string is
  `JsString`.
- `Registry` (registry.dfy): the `users` object as a map, plus the order its
  keys were added in. That order is the order `Object.values` lists them in.
  This module also holds the per-connection `name`/`id` records, and the
  values `Object.values`, the login snapshot and `sendToAll` compute. Its
  lemmas say what those values mean: membership, one copy per key, exclusion
  by name.
- `Handlers` (handlers.dfy): the three events as functions from the state
  before the event to the state after it. The state holds the registry, the
  connection records, the set of closed connections, and the outbox of every
  `send` made so far. The module also defines the invariant that every event
  keeps.
- `Server` (server.dfy): `class Relay` carries out the same events statement
  by statement on mutable fields. It has:
  - `users[name] = ws` and `delete users[ws.name]` as map updates;
  - `ws.name`/`ws.id` as updates of the connection records;
  - `sendTo` as an append to `outbox`;
  - `sendToAll` as the `forEach` loop.

  The event methods (`Open`, `HandleMessage`, `Close`) are proved to end in
  the state the matching `Handlers` function gives, and to keep the
  invariant. The helpers (`SendTo`, `SendToAll`, `Admit`, `Welcome`, `Login`)
  are proved to end in the state `Send`, `SendAll`, `Admitted` and `OnLogin`
  give.
- `Behaviour` (behaviour.dfy): what each branch promises, stated per
  connection. `SentTo(outbox, d)` is the sequence of frames connection `d`
  has been sent. Each lemma states exactly what an event appends to it, and
  what happens to the registry.
- `Scenario` (scenario.dfy): the general lemmas used on a concrete meeting.
  alice logs in, and a second "alice" is refused. bob logs in and is shown
  alice, while alice is told about bob. alice's connection closes and bob is
  told. The name "alice" can then be taken again. It also follows a run of
  logins under distinct fresh names, each on a new connection: every name is
  registered to its own connection with the next id, and the login list
  shows them in the order they arrived.

In four places the code does less than a signalling relay is meant to do.
The model follows the code:

- **A name can be rebound.** A participant's name and id are meant to be fixed
  after login. In the code, a second successful login from the same
  connection overwrites `ws.name` and `ws.id`, and leaves the first key in
  `users` pointing at that connection. `close` then deletes only the current
  name, so the closed connection stays registered under the first one. See
  `Behaviour.LoginAccepted` and `Behaviour.CloseKeepsEarlierKey`.
- **`leave` is not `close`.** An explicit `leave` is meant to have the same
  effect as a close. In the code, `leave` only broadcasts: nobody is
  unregistered (`Behaviour.LeaveQuiet` states `Quiet`).
- **Close without login deletes "undefined".** Closing a connection that never
  logged in is not a no-op. It deletes the key "undefined", which a login
  without a `name`, or with the name "undefined", registers under.
- **Exclusion is by name.** `sendToAll` skips a client by name, not by
  connection. A client registered under two keys gets the notice twice, and
  every client that currently bears the excluded name gets nothing. See
  `Behaviour.SendAllCounts`.

## Model

| member | source | states |
|---|---|---|
| Protocol.Decode | server/index.js:40-45 | Definition: parsed text is read as it is, text that does not parse as `{}`; see `Behaviour.Undecodable`. |
| Protocol.Dispatch | server/index.js:48-133 | Definition: the arm of `switch (type)` whose label equals `type`, `default` otherwise; see the `Behaviour.*Routed`, `Behaviour.LeaveAnnounced` and `Behaviour.UnknownRefused` lemmas. |
| Protocol.JsString | server/index.js:138 | Definition: a string, or "undefined" for an absent value, as JavaScript turns a key or template argument into text; see `Behaviour.CloseUnregisters`. |
| Protocol.NoSuchUser | server/index.js:87 | Definition: the text "User <name> does not exist!"; see `Behaviour.ForwardDelivers`. |
| Protocol.CommandNotFound | server/index.js:131 | Definition: the text "Command not found: <type>"; see `Behaviour.UnknownRefused`. |
| Registry.Info | server/index.js:61 | Definition: a connection's `{ id, userName }`; see `Registry.SnapshotIndex`. |
| Registry.Values | server/index.js:24 | Definition: `Object.values(users)` in key order; see `Registry.ValuesIndex`, `Registry.ValuesMembership`, `Registry.ValuesOnce`. |
| Registry.Without | server/index.js:138 | Definition: the key order after `delete users[key]`; see `Registry.WithoutMembership`, `Registry.WithoutAt`. |
| Registry.Snapshot | server/index.js:60-62 | Definition: the `map` to `{ id, userName }`; see `Registry.SnapshotIndex`, `Registry.SnapshotMembership`. |
| Registry.Broadcast | server/index.js:24-33 | Definition: the sends of the `forEach` loop; see `Registry.BroadcastSentTo`, `Registry.BroadcastOnce`, `Registry.BroadcastSkips`. |
| Registry.SentTo | server/index.js:17-19 | Definition: the frames addressed to one connection, in order; see `Registry.SentToAppend`. |
| Registry.Register | server/index.js:63-65 | Adding a fresh key for a connection and setting its fields keeps the registry well formed: keys listed once, in order, and every value has a record. |
| Registry.Unregister | server/index.js:138 | `delete users[key]` keeps the registry well formed. |
| Registry.ValuesIndex | server/index.js:24 | `Object.values(users)` has one entry per key, and entry i is the connection under the i-th key. |
| Registry.ValuesRegistered | server/index.js:24 | Every connection `Object.values` lists has a name/id record. |
| Registry.ValuesMembership | server/index.js:24 | A connection occurs in `Object.values(users)` if and only if some key maps to it. |
| Registry.ValuesOnce | server/index.js:24 | A connection registered under exactly one key occurs exactly once in `Object.values(users)`. |
| Registry.DistinctLength | server/index.js:14 | The key order has exactly as many entries as `users` has keys. |
| Registry.WithoutMembership | server/index.js:138 | After `delete users[key]` the key order lists exactly the other keys, still without repeats; deleting a key that is not present leaves the order as it was. |
| Registry.WithoutAt | server/index.js:138 | Deleting the key at position p leaves exactly the keys before it and after it, each in its relative order, so the next snapshot and `forEach` list them in the same order. |
| Registry.SnapshotIndex | server/index.js:60-62 | The snapshot has one `{ id, userName }` per client, entry i read from client i's current fields. |
| Registry.SnapshotMembership | server/index.js:60-62 | The login snapshot has one entry per key, and u is in it if and only if u is the `{ id, userName }` of some registered connection. |
| Registry.SnapshotOmitsFresh | server/index.js:59-62 | An id no registered connection holds never appears in the snapshot, so the newcomer is not listed. |
| Registry.BroadcastRegistered | server/index.js:23-34 | Every send of `sendToAll` is addressed to a registered connection that has a record. |
| Registry.BroadcastSound | server/index.js:25-31 | Every send of a broadcast carries the notice to a listed client whose name differs from the excluded name. |
| Registry.SentToAppend | server/index.js:17-19 | What a connection receives from two runs of sends is what it receives from the first, then the second. |
| Registry.BroadcastSentTo | server/index.js:24-33 | A client receives one copy of the notice per occurrence in the client list, or nothing if it bears the excluded name. |
| Registry.BroadcastOnce | server/index.js:23-34 | A registered client held under a single key, whose name differs, receives the notice exactly once. |
| Registry.BroadcastSkips | server/index.js:25 | An unregistered client, or one bearing the excluded name, receives nothing. |
| Handlers.Send | server/index.js:17-19 | Definition: `sendTo` as one append to the outbox; see `Behaviour.SendDelivers`. |
| Handlers.SendAll | server/index.js:23-34 | Definition: `sendToAll` over the registry; see `Behaviour.SendAllCounts`, `Behaviour.SendAllReaches`, `Behaviour.SendAllSkips`. |
| Handlers.LoginList | server/index.js:60-62 | Definition: the snapshot of `Object.values(users)`; see `Behaviour.LoginListed`. |
| Handlers.OnConnection | server/index.js:142-147 | Definition: a fresh connection and its greeting; see `Behaviour.OpenGreets`. |
| Handlers.OnLogin | server/index.js:49-73 | Definition: the `login` case; see `Behaviour.LoginRefused`, `Behaviour.LoginAccepted`, `Behaviour.LoginAnswered`, `Behaviour.LoginAnnounced`. |
| Handlers.Forward | server/index.js:74-122 | Definition: routing of an offer, answer or candidate, or the error; see `Behaviour.ForwardDelivers`. |
| Handlers.OnMessage | server/index.js:37-135 | Definition: decode, then the arm `Dispatch` selects; see `Behaviour.OfferRouted`, `Behaviour.LeaveAnnounced`, `Behaviour.UnknownRefused`, `Behaviour.Undecodable`. |
| Handlers.OnClose | server/index.js:137-140 | Definition: the `close` handler; see `Behaviour.CloseUnregisters`, `Behaviour.CloseAnnounced`. |
| Handlers.Admitted | server/index.js:63-65 | The registration a login under a free key performs keeps the registry well formed. |
| Handlers.Depart | server/index.js:138 | The deletion `close` performs keeps the registry well formed. |
| Handlers.InitialInvariant | server/index.js:14 | The empty server satisfies the invariant. |
| Handlers.SendPreserves | server/index.js:17-19 | Sending to a known connection keeps the invariant. |
| Handlers.SendAllPreserves | server/index.js:23-34 | `sendToAll` keeps the invariant. |
| Handlers.OnConnectionPreserves | server/index.js:142-147 | Opening and greeting a connection keeps the invariant. |
| Handlers.AdmittedPreserves | server/index.js:59-65 | Registering under a free key with a fresh id keeps the invariant, including unique ids. |
| Handlers.OnLoginPreserves | server/index.js:49-73 | Both login branches keep the invariant. |
| Handlers.ForwardPreserves | server/index.js:74-122 | Routing or refusing an offer, answer or candidate keeps the invariant. |
| Handlers.OnMessagePreserves | server/index.js:37-135 | Every message, decodable or not, keeps the invariant. |
| Handlers.OnClosePreserves | server/index.js:137-140 | `close` keeps the invariant. |
| Server.Relay.constructor | server/index.js:14 | The relay starts with no users, no connections and nothing sent, and satisfies the invariant. |
| Server.Relay.SendTo | server/index.js:17-19 | `sendTo` appends one frame for that connection to the outbox, and nothing else changes. |
| Server.Relay.SendToAll | server/index.js:23-34 | The `forEach` loop appends exactly the broadcast `Handlers.SendAll` describes, in key order. |
| Server.Relay.Open | server/index.js:142-147 | A new connection gets a fresh number and an empty record, and is greeted; keeps the invariant. |
| Server.Relay.Admit | server/index.js:59-65 | Takes the snapshot of the users present before registering, then registers the sender under a fresh id. |
| Server.Relay.Welcome | server/index.js:57-72 | A login under a free key is admitted, answered with the snapshot, and announced. |
| Server.Relay.Login | server/index.js:49-73 | The `login` case: a taken name is refused, a free one welcomed. |
| Server.Relay.HandleMessage | server/index.js:37-135 | Decodes, dispatches on `type`, and ends in the state `Handlers.OnMessage` gives; keeps the invariant. |
| Server.Relay.Close | server/index.js:137-140 | Deletes the current name's key, marks the connection closed, broadcasts `leave`; keeps the invariant. |
| Behaviour.NeverSent | server/index.js:17-19 | A connection no send was addressed to has been sent nothing. |
| Behaviour.SendDelivers | server/index.js:17-19 | `sendTo` reaches that connection once and nobody else, and changes no registry state. |
| Behaviour.SendAllCounts | server/index.js:23-34 | Registry untouched; a client whose name differs gets one notice per key it is registered under. |
| Behaviour.SendAllReaches | server/index.js:23-34 | A client registered under a single key, under another name, gets exactly one notice. |
| Behaviour.SendAllSkips | server/index.js:25 | An unregistered client, or one bearing the excluded name, gets nothing. |
| Behaviour.OpenGreets | server/index.js:142-147 | The new connection is fresh, has no name or id, is not closed, and hears only the greeting; nobody else hears anything. |
| Behaviour.LoginRefused | server/index.js:50-56 | A taken name: exactly one "Username is unavailable" to the sender; users, records and counters unchanged. |
| Behaviour.LoginAccepted | server/index.js:59-65 | A free name: that key now maps to the sender, and every earlier key is kept. The sender's record becomes the name and a fresh id; nothing else in the registry changes. |
| Behaviour.LoginAnswered | server/index.js:60-70 | The sender gets exactly one success reply, listing the registry as it was before the login. |
| Behaviour.LoginAnnounced | server/index.js:71 | Every other client held under a single key and another name gets exactly one `updateUsers` with the new id and name. |
| Behaviour.LoginUnannounced | server/index.js:71 | Another client that is unregistered, or bears the new name, hears nothing of the login. |
| Behaviour.EntryKept | server/index.js:63 | Adding a fresh key for one connection registers no other connection. |
| Behaviour.LoginListed | server/index.js:60-69 | The reply lists one entry per key. u is listed if and only if it is some registered connection's `{ id, userName }`; every entry has an id, never the newcomer's. |
| Behaviour.ForwardDelivers | server/index.js:75-89 | A registered target gets exactly the envelope; otherwise only the sender gets the "does not exist" error. The registry is unchanged. |
| Behaviour.OfferRouted | server/index.js:74-90 | `offer`: the target gets the payload untouched, signed with the sender's current name; an unknown target gives the sender one error; users unchanged. |
| Behaviour.AnswerRouted | server/index.js:91-106 | `answer`: the target gets the payload with no sender attached; an unknown target gives the sender one error; users unchanged. |
| Behaviour.CandidateRouted | server/index.js:107-122 | `candidate`: the target gets the payload with no sender attached; an unknown target gives the sender one error; users unchanged. |
| Behaviour.LeaveQuiet | server/index.js:123-126 | `leave` unregisters nobody and changes no record or counter, whoever is registered. |
| Behaviour.LeaveAnnounced | server/index.js:123-126 | `leave` unregisters nobody; every client held under a single key and another name gets exactly one `leave` notice. |
| Behaviour.LeaveUnannounced | server/index.js:123-126 | An unregistered client, or one bearing the sender's name, hears nothing of the `leave`. |
| Behaviour.UnknownRefused | server/index.js:127-133 | Any other `type`, absent included: one "Command not found" error naming it, to the sender only; nothing else changes. |
| Behaviour.Undecodable | server/index.js:40-47 | Text that is not JSON is read as `{}`, and answered "Command not found: undefined". |
| Behaviour.CloseUnregisters | server/index.js:137-139 | `close` deletes exactly the key of the current name ("undefined" if none), from the map and from the key order with the other keys kept in order; it marks the connection closed and changes no record or counter. |
| Behaviour.CloseAnnounced | server/index.js:139 | Every client left under a single key and another name gets exactly one `leave` notice. |
| Behaviour.CloseUnannounced | server/index.js:139 | A client left unregistered, or bearing the closed connection's name, hears nothing. |
| Behaviour.CloseFreesName | server/index.js:138 | After close, a login under the closed connection's name succeeds and registers the new connection. |
| Behaviour.CloseKeepsEarlierKey | server/index.js:138 | A connection that logged in twice stays registered under its earlier key after it closes. |
| Scenario.JoinAs | server/index.js:36-73 | Definition: a new connection that logs in; see `Scenario.JoinKeeps`. |
| Scenario.JoinKeeps | server/index.js:36-73 | A fresh connection logging in keeps the invariant. |
| Scenario.HangUp | server/index.js:137-140 | A close keeps the invariant. |
| Scenario.AliceFirst | server/index.js:59-65 | On an empty relay alice is registered alone, as connection 0 with id 0. |
| Scenario.AliceGreeted | server/index.js:66-70 | alice hears the greeting and an empty list of users. |
| Scenario.NameTaken | server/index.js:50-56 | A second "alice" leaves the registry as it was. |
| Scenario.NameTakenReplies | server/index.js:50-56 | The second connection hears the greeting and the refusal; alice hears nothing. |
| Scenario.AliceListed | server/index.js:60-62 | With alice alone registered, the login list is exactly alice's id and name. |
| Scenario.BobJoins | server/index.js:59-65 | bob is registered next to alice under the next id. |
| Scenario.BobShownAlice | server/index.js:66-70 | bob hears the greeting and a list holding exactly alice. |
| Scenario.AliceToldOfBob | server/index.js:71 | alice is told, once, that bob arrived. |
| Scenario.AliceRemoved | server/index.js:138 | Deleting "alice" from the keys "alice", "bob" leaves "bob". |
| Scenario.AliceHangsUp | server/index.js:138 | When alice's connection closes, only bob stays registered. |
| Scenario.BobToldAliceLeft | server/index.js:139 | bob is told, once, that alice left. |
| Scenario.AliceReturns | server/index.js:50-65 | With alice gone, the next connection takes the name "alice". |
| Scenario.JoinAll | server/index.js:36-73 | A run of logins, each on a new connection, keeps the invariant. |
| Scenario.JoinFresh | server/index.js:63 | A login on a new connection under a free name adds that key for the connection, after the keys already present, and keeps every other key. |
| Scenario.JoinRecord | server/index.js:59-65 | That login gives the new connection the name and the next id, changes no other record, and advances both counters by one. |
| Scenario.JoinedExtend | server/index.js:59-65 | One more such login extends the description of the run by that name. |
| Scenario.LoginsStep | server/index.js:59-65 | A login under a name neither registered nor already in the run extends the run. |
| Scenario.Logins | server/index.js:59-65 | After a run of logins under distinct fresh names, the keys are the old ones plus the names; the i-th name maps to the i-th new connection, whose record holds the name and the i-th new id; earlier keys keep their connections. |
| Scenario.ListedLength | server/index.js:60-62 | The login list has one entry per key. |
| Scenario.ListedAt | server/index.js:60-62 | Entry j of the login list is the record of the connection under the j-th key. |
| Scenario.ListedEntry | server/index.js:60-62 | The entry for the i-th name of the run is that name with the i-th new id. |
| Scenario.ListedEntries | server/index.js:60-62 | The login list ends with the names of the run, in order, each with its id. |
| Scenario.JoinedListed | server/index.js:60-62 | The same, for a well formed registry the run started from. |
| Scenario.LoginsListed | server/index.js:59-70 | After the run, each name is registered as `Scenario.Logins` states, and the login list holds the earlier users and then the i-th name with the i-th new id, in login order. |
| Scenario.AliceIn | server/index.js:36-73 | From start-up, alice is registered alone after the first connection. |
| Scenario.SecondAlice | server/index.js:50-56 | After the refused second "alice", alice is still registered alone. |
| Scenario.BobIn | server/index.js:57-72 | After bob's login, alice (0) and bob (2) are registered. |
| Scenario.AliceGone | server/index.js:137-140 | After alice's connection closes, bob alone is registered. |
| Scenario.AliceHearsWelcome | server/index.js:66-70 | alice's frames after login: the greeting, then an empty user list. |
| Scenario.SecondAliceHearsRefusal | server/index.js:50-56 | Connection 1's frames: the greeting, then "Username is unavailable". |
| Scenario.AliceHearsBob | server/index.js:71 | alice's frames once bob is in: greeting, empty list, and one `updateUsers` for bob. |
| Scenario.BobHearsAlice | server/index.js:66-70 | bob's frames after login: the greeting, then the list holding alice. |
| Scenario.BobHearsAliceLeave | server/index.js:139 | bob's frames once alice is gone: greeting, the list holding alice, and one `leave` for alice. |
| Scenario.AliceTakesNameAgain | server/index.js:50-65 | Connection 3 logs in as "alice" after she has gone. |

## Left out

- Server setup (server/index.js:1-11, server/index.js:150-152): Express, HTTP and `listen` are plumbing.
- The WebSocket transport: event registration is left out, and so is delivery. A `send` is an append to the outbox, including a send to a connection that has already closed.
- Events on a closed connection are excluded by the `c !in closed` preconditions of `Server.Relay.HandleMessage` and `Server.Relay.Close`. The transport fires nothing on a closed socket.
- JSON encoding and decoding: a message is given already destructured (`Inbound`), and `None` stands for text that did not parse. Payloads are opaque.
- Non-string values of `type` or `name`, and a message that parses to `null`, are left out. Such a `null` message makes the destructuring throw.
- Keys inherited from `Object.prototype` (such as "constructor") would make `users[name]` truthy for an unregistered name. They are left out: `users` is a plain map.
- JavaScript lists integer-like keys first in `Object.values`. The model keeps pure insertion order.
- `uuidv4()` is a counter, `nextId`. Only the freshness of the id is modelled, not the UUID format.
- Connection objects are numbered by a counter, `nextConn`.
- Logging (`console.log`, `console.error`) has no protocol effect and is left out.
- Concurrency: Node runs each handler to completion, so a run is a sequence of events, one after another.
