# Relay server session directory and message router

This project models the in-memory core of a Node.js WebSocket chat relay
(`server.js`). The server keeps three module-level stores:

- `players`: a map from a player id to the connection that registered it.
- `parties`: a map from a party id to the list of its member ids.
- `lobby`: a list of player ids.

Each decoded inbound message is dispatched on its `type`. `register`,
`createParty`, `joinParty` and `leaveParty` change the stores.
`privateMessage`, `partyMessage`, `lobbyMessage` and `globalMessage` send a
`{ from, text }` record to a fan-out of connections. The `close` handler of a
connection cleans up the stores.

Layout:

- `filter.dfy` (module `Filter`): `list.filter(id => id !== x)` as `Without`, and
  filtering out a whole set of ids as `WithoutAll`, with their order and count laws.
- `directory.dfy` (module `Directory`): the stores as a `State` value, and each
  state-changing handler as a function from the old state to the new one, with
  the lemmas that relate several messages.
- `routing.dfy` (module `Routing`): the `Event` datatype (one variant per
  `case`, plus `Unknown` and `Malformed`), payloads and deliveries, the fan-out
  functions `SendToPlayer`, `FanOut` and `Broadcast`, and the dispatch
  functions `Next` (new stores) and `Deliveries` (sends made).
- `server.dfy` (module `Server`): class `RelayServer` with the three stores as
  mutable fields. Its methods update the fields in place and run the source's
  `forEach` loops as `for` and `while` loops. Each method is proved equal to the
  matching function of `Directory` or `Routing`.

Connections are `Conn(handle)` values compared by identity. Whether a
connection's `readyState` is `OPEN` is an input of each step (`open: set<Conn>`).
The transport's client list `wss.clients` is an input of `globalMessage`
(`clients: seq<Conn>`).

Behaviour of `server.js` that the model keeps as written:

- Party member lists and the lobby are lists: `joinParty` and `register`
  append even when the id is already listed.
- The sender id is the `playerId` field the client puts in the message. It is
  not derived from the connection.
- `close` filters every id registered at that moment out of every party, not
  only the ids of the closing connection (`Directory.CloseStripsOtherConnections`).
- `globalMessage` goes to every open transport client, registered or not.
- An `Unknown` event stands for a `type` that no `case` handles
  (`Routing.Event.WellFormed`); it is the `default` branch.

## Model

| member | source | states |
|---|---|---|
| `Directory.Initial` | server.js:10-12 | The server starts with no players, no parties and an empty lobby. |
| `Directory.Register` | server.js:55-59 | `register` binds the id to the sending connection and keeps every other binding. It appends the id at the end of the lobby, one more copy each time. Parties are unchanged. |
| `Directory.CreateParty` | server.js:61-69 | On a new party id the party is created with the creator as its only member. On an existing id nothing changes. `players` and `lobby` are never touched. |
| `Directory.JoinParty` | server.js:71-78 | On an unknown party nothing changes. Otherwise the member list becomes the old list plus the id at the end, and every other party is unchanged. |
| `Directory.LeaveParty` | server.js:80-85 | On an existing party the id no longer occurs in its list, and every other id occurs exactly when it did before. Other parties are unchanged. An unknown party is a no-op. |
| `Directory.StripParties` | server.js:124-128 | Filtering a set of ids out of every party keeps the party ids. Each list then holds exactly its ids that are not in the set. |
| `Directory.Close` | server.js:121-137 | After `close`, no party lists an id that was registered when `close` began. Parties keep their other ids. `players` loses exactly the ids bound to the closing connection and keeps the other bindings. The lobby loses exactly those ids. |
| `Directory.RegisterTwice` | server.js:55-59 | Registering an id twice adds two lobby entries for it, and the second connection wins the binding. |
| `Directory.JoinPartyNotIdempotent` | server.js:71-78 | A second join of the same id changes the party again and lists the id twice more than before. |
| `Directory.JoinThenLeave` | server.js:71-85 | Joining then leaving the same party has the same result as leaving alone. |
| `Directory.LeavePartyKeepsOthers` | server.js:83 | `leaveParty` keeps every other member as often as before and in the original order. |
| `Directory.CloseKeepsUnregistered` | server.js:124-128 | After `close`, each party keeps its unregistered ids as often as before and in the original order. |
| `Directory.CloseKeepsLobby` | server.js:130-136 | After `close`, the lobby keeps every entry not bound to the closing connection, as often as before and in order. |
| `Directory.CloseStripsOtherConnections` | server.js:124-128 | Closing one connection removes a player on another open connection from its parties. That player stays registered and stays in the lobby. |
| `Directory.CloseIdempotent` | server.js:121-137 | A second `close` of the same connection changes nothing. |
| `Filter.Without` | server.js:83 | The filtered list holds exactly the elements of the list other than the removed id, and is no longer. |
| `Filter.WithoutAll` | server.js:134 | Filtering out a set of ids leaves exactly the elements not in the set. |
| `Filter.WithoutAllIsSubsequence` | server.js:134 | Filtering keeps the surviving elements in their original order. |
| `Filter.WithoutAllCount` | server.js:134 | Filtering keeps each surviving element exactly as often as it occurred. |
| `Filter.WithoutAllAppend` | server.js:134 | Filtering distributes over list concatenation. |
| `Filter.WithoutAllNoop` | server.js:134 | Filtering a list that holds none of the removed ids returns it unchanged. |
| `Filter.WithoutAllStep` | server.js:124-128 | Filtering one more id out of an already filtered list equals filtering out the larger set. |
| `Filter.WithoutIsWithoutAll` | server.js:83 | The single-id filter equals the set filter with one id. |
| `Routing.SendToPlayer` | server.js:15-20 | `sendToPlayer` makes at most one delivery. It makes one exactly when the id is registered and its connection is open, and that delivery goes to the registered connection. |
| `Routing.FanOut` | server.js:32-39 | One `sendToPlayer` per list entry makes at most one delivery per entry. Every delivery carries the message and goes to an open connection. |
| `Routing.Broadcast` | server.js:23-29 | `sendToAll` makes at most one delivery per entry of the client list, and only to open clients. |
| `Routing.Next` | server.js:47-118 | Chat messages, an unknown `type` and a payload that is not JSON leave all three stores unchanged. Only `register` changes `players` or `lobby`. |
| `Routing.Deliveries` | server.js:93-114 | Only chat messages send. A private message sends at most once. A party message to an unknown party sends nothing. Party and lobby messages send at most once per list entry, and a global message at most once per entry of the client list. Every send carries `{ from: playerId, text: message }` to an open connection. |
| `Routing.FanOutFrom` | server.js:35-37 | The deliveries for a list suffix are those of its first entry followed by those of the rest, after any deliveries already made. |
| `Routing.FanOutOnlyListed` | server.js:35-37 | Every fan-out delivery goes to the connection of a listed, registered id. |
| `Routing.BroadcastReachesOpenClients` | server.js:24-28 | A global message reaches a connection exactly when it is a client of the transport and open. |
| `Routing.BroadcastOncePerClient` | server.js:24-28 | Over distinct clients, as the `Set` `wss.clients` holds, a global message reaches each open client exactly once and no other connection. |
| `Routing.FanOutAppend` | server.js:35-37 | Fanning out over two concatenated lists makes the deliveries of the first list, then those of the second. |
| `Routing.FanOutAllReachable` | server.js:35-37 | When every entry is reachable there is exactly one delivery per entry, duplicates included, in list order. |
| `Routing.FanOutReachesEveryEntry` | server.js:35-37 | Every reachable entry of the list receives the message. |
| `Routing.PartyMessageAfterDoubleJoin` | server.js:98-101 | After a reachable player joins a party twice, a party message sends to that player two more times. |
| `Routing.PrivateMessageAfterRegister` | server.js:93-96 | After `register` on an open connection, a private message to that id makes exactly one delivery, to that connection. |
| `Routing.LobbyMessageAfterRegister` | server.js:108-114 | After `register` on an open connection, the last delivery of a lobby message goes to the new player. |
| `Server.SendToAll` | server.js:23-29 | The loop over the transport clients makes exactly the `Broadcast` deliveries. |
| `Server.RelayServer.constructor` | server.js:10-12 | A new server holds the initial, empty stores. |
| `Server.RelayServer.SendToParty` | server.js:32-39 | The `forEach` over the party makes exactly the `FanOut` deliveries of its list. An unknown party makes none. |
| `Server.RelayServer.SendToLobby` | server.js:108-114 | The `forEach` over the lobby makes exactly the `FanOut` deliveries of the lobby list. |
| `Server.RelayServer.Register` | server.js:55-59 | The in-place update gives the stores `Directory.Register` describes. |
| `Server.RelayServer.CreateParty` | server.js:61-69 | The in-place update gives the stores `Directory.CreateParty` describes. |
| `Server.RelayServer.JoinParty` | server.js:71-78 | The in-place `push` gives the stores `Directory.JoinParty` describes. |
| `Server.RelayServer.LeaveParty` | server.js:80-85 | The reassignment with the filtered list gives the stores `Directory.LeaveParty` describes. |
| `Server.RelayServer.StripFromParties` | server.js:125-127 | The inner `parties.forEach` filters one id out of every party and touches nothing else. |
| `Server.RelayServer.StripRegisteredFromParties` | server.js:124-128 | The outer `players.forEach` filters every registered id out of every party. |
| `Server.RelayServer.DropConnection` | server.js:131-136 | The second `players.forEach` deletes exactly the ids bound to the connection and filters exactly those ids out of the lobby. |
| `Server.RelayServer.Close` | server.js:121-137 | The `close` handler gives the stores `Directory.Close` describes. |
| `Server.RelayServer.HandleMessage` | server.js:45-118 | One message updates the stores as `Routing.Next` says and returns the sends `Routing.Deliveries` lists. |

## Left out

- `getPartyMembers` (server.js:87-91) calls a function the file never defines. Line 89 throws a `ReferenceError` before any store changes, and nothing catches it. The model has no `Event` variant for it and does not model the uncaught exception.
- A payload that parses to `null` (server.js:48) makes `message.type` at server.js:53 throw a `TypeError` outside the `try`, and nothing catches it. No `Event` value stands for this input, and the model does not capture the uncaught exception.
- `Routing.Broadcast`: the `clients` list may repeat a connection, and then the connection gets one delivery per entry. `wss.clients` is a `Set`, so it never repeats a connection. `Routing.BroadcastOncePerClient` proves one delivery per open client for distinct lists. `Broadcast` and `Deliveries` themselves do not require distinct clients.
- WebSocket server construction and the port taken from the environment (server.js:2-8) are transport and bootstrap code.
- JSON parsing and `JSON.stringify` are not modelled. Inbound messages are already-decoded `Event` values. A payload that fails to parse is the `Malformed` event. Outbound records are `Payload` values.
- Message fields are modelled as strings. The source accepts any JSON value, including a missing field (`undefined`), as an id or a text.
- `readyState` and `ws.send` are replaced by the `open` set and the returned delivery list. `wss.clients` is the `clients` parameter.
- `console.log` and `console.error` have no behaviour to model.
- Map iteration order in the `close` loops is not modelled. The loops pick keys in any order, and the result does not depend on the order.
- Concurrency is not modelled. Node runs one event at a time, so each message and each `close` is one atomic step.
