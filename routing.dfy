/**
 * Message routing of the relay server: the decoded inbound message, the
 * deliveries a message fans out to, and the dispatch on the message type.
 * A connection is open when its `readyState` is `OPEN`; the set of open
 * connections and the transport's list of clients are inputs of a step.
 */
module Routing {
  import opened Filter
  import opened Directory

  /** The outbound record `{ from, text }` every chat message carries. */
  datatype Payload = Payload(from: PlayerId, text: string)

  /** One `send` of a payload on a connection. */
  datatype Delivery = Delivery(to: Conn, payload: Payload)

  /** The `type` strings the dispatch `switch` has a `case` for. */
  const HandledTypes: set<string> := {"register", "createParty", "joinParty", "leaveParty",
    "getPartyMembers", "privateMessage", "partyMessage", "globalMessage", "lobbyMessage"}

  /** A decoded inbound message, one variant per `case` of the dispatch, plus
      a payload that is not valid JSON and a message of any other type. An
      `Unknown` message stands only for a `type` outside `HandledTypes`
      (see `WellFormed`): it is the `default` branch. */
  datatype Event =
    | Register(playerId: PlayerId)
    | CreateParty(playerId: PlayerId, partyId: PartyId)
    | JoinParty(playerId: PlayerId, partyId: PartyId)
    | LeaveParty(playerId: PlayerId, partyId: PartyId)
    | PrivateMessage(playerId: PlayerId, targetPlayerId: PlayerId, message: string)
    | PartyMessage(playerId: PlayerId, partyId: PartyId, message: string)
    | GlobalMessage(playerId: PlayerId, message: string)
    | LobbyMessage(playerId: PlayerId, message: string)
    | Unknown(messageType: string)
    | Malformed
  {
    /** The message types that only send and never change the stores. */
    predicate IsChat() {
      PrivateMessage? || PartyMessage? || GlobalMessage? || LobbyMessage?
    }

    /** An `Unknown` message carries a type that no `case` handles. */
    predicate WellFormed() {
      Unknown? ==> messageType !in HandledTypes
    }
  }

  /** `id` is registered and its connection is open. */
  predicate Reachable(players: map<PlayerId, Conn>, open: set<Conn>, id: PlayerId) {
    id in players && players[id] in open
  }

  /** `sendToPlayer`: at most one delivery, to the connection of `id`, and
      only when that connection is open. */
  function SendToPlayer(players: map<PlayerId, Conn>, open: set<Conn>, id: PlayerId, msg: Payload): (r: seq<Delivery>)
    ensures |r| <= 1
    ensures |r| == 1 <==> Reachable(players, open, id)
    ensures r != [] ==> r[0] == Delivery(players[id], msg)
  {
    if Reachable(players, open, id) then [Delivery(players[id], msg)] else []
  }

  /** One `sendToPlayer` per entry of `ids`, in order. */
  function FanOut(players: map<PlayerId, Conn>, open: set<Conn>, ids: seq<PlayerId>, msg: Payload): (r: seq<Delivery>)
    ensures |r| <= |ids|
    ensures forall d :: d in r ==> d.payload == msg && d.to in open
  {
    if ids == [] then []
    else SendToPlayer(players, open, ids[0], msg) + FanOut(players, open, ids[1..], msg)
  }

  /** No connection is listed twice, as in the transport's `Set` of clients. */
  predicate Distinct(clients: seq<Conn>) {
    forall i, j :: 0 <= i < j < |clients| ==> clients[i] != clients[j]
  }

  /** `sendToAll`: one delivery per open client of the transport, in order,
      whether or not the client ever registered. */
  function Broadcast(clients: seq<Conn>, open: set<Conn>, msg: Payload): (r: seq<Delivery>)
    ensures |r| <= |clients|
    ensures forall d :: d in r ==> d.payload == msg && d.to in open
  {
    if clients == [] then []
    else (if clients[0] in open then [Delivery(clients[0], msg)] else []) + Broadcast(clients[1..], open, msg)
  }

  /** The new stores after message `ev` from connection `ws`. */
  function Next(s: State, ev: Event, ws: Conn): (t: State)
    ensures ev.IsChat() || ev.Unknown? || ev.Malformed? ==> t == s
    ensures !ev.Register? ==> t.players == s.players && t.lobby == s.lobby
  {
    match ev
    case Register(id) => Directory.Register(s, id, ws)
    case CreateParty(id, pid) => Directory.CreateParty(s, pid, id)
    case JoinParty(id, pid) => Directory.JoinParty(s, pid, id)
    case LeaveParty(id, pid) => Directory.LeaveParty(s, pid, id)
    case _ => s
  }

  /** The deliveries message `ev` makes, given the stores before it. The
      sender id is whatever the message claims. */
  function Deliveries(s: State, ev: Event, open: set<Conn>, clients: seq<Conn>): (r: seq<Delivery>)
    ensures !ev.IsChat() ==> r == []
    ensures ev.PrivateMessage? ==> |r| <= 1
    ensures ev.PartyMessage? && ev.partyId !in s.parties ==> r == []
    ensures ev.PartyMessage? && ev.partyId in s.parties ==> |r| <= |s.parties[ev.partyId]|
    ensures ev.LobbyMessage? ==> |r| <= |s.lobby|
    ensures ev.GlobalMessage? ==> |r| <= |clients|
    ensures ev.IsChat() ==> forall d :: d in r ==> d.payload == Payload(ev.playerId, ev.message) && d.to in open
  {
    match ev
    case PrivateMessage(from, target, text) => SendToPlayer(s.players, open, target, Payload(from, text))
    case PartyMessage(from, pid, text) =>
      if pid in s.parties then FanOut(s.players, open, s.parties[pid], Payload(from, text)) else []
    case GlobalMessage(from, text) => Broadcast(clients, open, Payload(from, text))
    case LobbyMessage(from, text) => FanOut(s.players, open, s.lobby, Payload(from, text))
    case _ => []
  }

  // ---------------------------------------------------------------------
  // Fan-out properties
  // ---------------------------------------------------------------------

  /** Fanning out to two lists one after the other is fanning out to their
      concatenation: deliveries follow the order of the list. */
  lemma {:induction false} FanOutAppend(players: map<PlayerId, Conn>, open: set<Conn>, a: seq<PlayerId>, b: seq<PlayerId>, msg: Payload)
    ensures FanOut(players, open, a + b, msg) == FanOut(players, open, a, msg) + FanOut(players, open, b, msg)
    decreases |a|
  {
    if a == [] {
      assert a + b == b;
    } else {
      FanOutAppend(players, open, a[1..], b, msg);
      assert (a + b)[0] == a[0] && (a + b)[1..] == a[1..] + b;
    }
  }

  /** The deliveries to a suffix of the list: those of its first entry, then
      those of the rest; the step of a loop over the list. */
  lemma FanOutFrom(players: map<PlayerId, Conn>, open: set<Conn>, ids: seq<PlayerId>, msg: Payload, i: nat, done: seq<Delivery>)
    requires i < |ids|
    ensures done + FanOut(players, open, ids[i..], msg)
      == (done + SendToPlayer(players, open, ids[i], msg)) + FanOut(players, open, ids[i + 1..], msg)
  {
    assert ids[i..][0] == ids[i] && ids[i..][1..] == ids[i + 1..];
  }

  /** Every delivery goes to the connection of a listed, registered id. */
  lemma {:induction false} FanOutOnlyListed(players: map<PlayerId, Conn>, open: set<Conn>, ids: seq<PlayerId>, msg: Payload, d: Delivery)
    requires d in FanOut(players, open, ids, msg)
    ensures exists k :: k in ids && k in players && players[k] == d.to
    decreases |ids|
  {
    if d !in SendToPlayer(players, open, ids[0], msg) {
      FanOutOnlyListed(players, open, ids[1..], msg, d);
      var k :| k in ids[1..] && k in players && players[k] == d.to;
      assert k in ids;
    }
  }

  /** A global message reaches exactly the open clients. */
  lemma {:induction false} BroadcastReachesOpenClients(clients: seq<Conn>, open: set<Conn>, msg: Payload, c: Conn)
    ensures Delivery(c, msg) in Broadcast(clients, open, msg) <==> c in clients && c in open
    decreases |clients|
  {
    if clients != [] {
      BroadcastReachesOpenClients(clients[1..], open, msg, c);
      assert c in clients <==> c == clients[0] || c in clients[1..];
    }
  }

  /** Over a list of distinct clients, as `wss.clients` is, a global message
      reaches each open client exactly once and no other connection. */
  lemma {:induction false} BroadcastOncePerClient(clients: seq<Conn>, open: set<Conn>, msg: Payload, c: Conn)
    requires Distinct(clients)
    ensures multiset(Broadcast(clients, open, msg))[Delivery(c, msg)] == if c in clients && c in open then 1 else 0
    decreases |clients|
  {
    if clients != [] {
      var rest := clients[1..];
      assert Distinct(rest) by {
        forall i, j | 0 <= i < j < |rest| ensures rest[i] != rest[j] {
          assert rest[i] == clients[i + 1] && rest[j] == clients[j + 1];
        }
      }
      BroadcastOncePerClient(rest, open, msg, c);
      var head := if clients[0] in open then [Delivery(clients[0], msg)] else [];
      assert Broadcast(clients, open, msg) == head + Broadcast(rest, open, msg);
      assert multiset(head + Broadcast(rest, open, msg)) == multiset(head) + multiset(Broadcast(rest, open, msg));
      assert c in clients <==> c == clients[0] || c in rest;
      if c == clients[0] {
        forall j | 0 <= j < |rest|
          ensures rest[j] != c
        {
          assert rest[j] == clients[j + 1];
        }
      }
    }
  }

  /** When every listed id is reachable, entry `i` of the list gets delivery
      `i`: exactly one delivery per entry, duplicates included. */
  lemma {:induction false} FanOutAllReachable(players: map<PlayerId, Conn>, open: set<Conn>, ids: seq<PlayerId>, msg: Payload)
    requires forall i :: 0 <= i < |ids| ==> Reachable(players, open, ids[i])
    ensures var r := FanOut(players, open, ids, msg);
      |r| == |ids| && forall i :: 0 <= i < |ids| ==> Reachable(players, open, ids[i]) && r[i] == Delivery(players[ids[i]], msg)
    decreases |ids|
  {
    if ids != [] {
      FanOutAllReachable(players, open, ids[1..], msg);
      var r := FanOut(players, open, ids, msg);
      var rest := FanOut(players, open, ids[1..], msg);
      assert r == [Delivery(players[ids[0]], msg)] + rest;
      forall i | 0 <= i < |ids|
        ensures r[i] == Delivery(players[ids[i]], msg)
      {
        if i > 0 {
          assert r[i] == rest[i - 1] && ids[1..][i - 1] == ids[i];
        }
      }
    }
  }

  /** Every reachable entry of the list receives the payload. */
  lemma {:induction false} FanOutReachesEveryEntry(players: map<PlayerId, Conn>, open: set<Conn>, ids: seq<PlayerId>, msg: Payload, i: nat)
    requires i < |ids| && Reachable(players, open, ids[i])
    ensures Delivery(players[ids[i]], msg) in FanOut(players, open, ids, msg)
    decreases i
  {
    if i > 0 {
      FanOutReachesEveryEntry(players, open, ids[1..], msg, i - 1);
      assert ids[1..][i - 1] == ids[i];
    }
  }

  /** A `partyMessage` sends to a member as many times as the member is
      listed: after two joins by a reachable player, two more deliveries. */
  lemma PartyMessageAfterDoubleJoin(s: State, pid: PartyId, id: PlayerId,
                                    open: set<Conn>, clients: seq<Conn>, from: PlayerId, text: string)
    requires pid in s.parties && Reachable(s.players, open, id)
    ensures var t := Directory.JoinParty(Directory.JoinParty(s, pid, id), pid, id);
      var d := Delivery(s.players[id], Payload(from, text));
      var before := Deliveries(s, PartyMessage(from, pid, text), open, clients);
      var after := Deliveries(t, PartyMessage(from, pid, text), open, clients);
      multiset(after)[d] == multiset(before)[d] + 2
  {
    var t := Directory.JoinParty(Directory.JoinParty(s, pid, id), pid, id);
    var msg := Payload(from, text);
    var d := Delivery(s.players[id], msg);
    assert t.parties[pid] == s.parties[pid] + [id, id];
    FanOutAppend(s.players, open, s.parties[pid], [id, id], msg);
    FanOutAllReachable(s.players, open, [id, id], msg);
    assert FanOut(s.players, open, [id, id], msg) == [d, d];
  }

  /** A registered player on an open connection can be reached by a private
      message: exactly one delivery, on the connection it registered with. */
  lemma PrivateMessageAfterRegister(s: State, id: PlayerId, ws: Conn, open: set<Conn>,
                                    clients: seq<Conn>, from: PlayerId, text: string)
    requires ws in open
    ensures var t := Next(s, Register(id), ws);
      Deliveries(t, PrivateMessage(from, id, text), open, clients) == [Delivery(ws, Payload(from, text))]
  {
  }

  /** A lobby message after `register` reaches the new player last: the entry
      `register` appended is the last one the lobby loop visits. */
  lemma LobbyMessageAfterRegister(s: State, id: PlayerId, ws: Conn, open: set<Conn>,
                                  clients: seq<Conn>, from: PlayerId, text: string)
    requires ws in open
    ensures var t := Next(s, Register(id), ws);
      var r := Deliveries(t, LobbyMessage(from, text), open, clients);
      |r| > 0 && r[|r| - 1] == Delivery(ws, Payload(from, text))
  {
    var t := Next(s, Register(id), ws);
    var msg := Payload(from, text);
    assert t.lobby == s.lobby + [id];
    FanOutAppend(t.players, open, s.lobby, [id], msg);
    assert FanOut(t.players, open, [id], msg) == [Delivery(ws, msg)];
  }
}
