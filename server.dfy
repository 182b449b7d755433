/**
 * The relay server's connection handlers as they run: one object holding the
 * three module-level stores, updated in place by each message and by the
 * `close` handler. Every method is proved against the functions of
 * modules Directory and Routing, where the properties of the stores and of
 * the fan-out are proved.
 */
module Server {
  import opened Filter
  import opened Directory
  import opened Routing

  /** `sendToAll`: walk the transport's clients and send on each open one. */
  method SendToAll(clients: seq<Conn>, open: set<Conn>, msg: Payload) returns (out: seq<Delivery>)
    ensures out == Broadcast(clients, open, msg)
  {
    out := [];
    for i := 0 to |clients|
      invariant out + Broadcast(clients[i..], open, msg) == Broadcast(clients, open, msg)
    {
      assert clients[i..][0] == clients[i] && clients[i..][1..] == clients[i + 1..];
      var head := if clients[i] in open then [Delivery(clients[i], msg)] else [];
      assert Broadcast(clients[i..], open, msg) == head + Broadcast(clients[i + 1..], open, msg);
      if clients[i] in open {
        out := out + [Delivery(clients[i], msg)];
      }
    }
    assert clients[|clients|..] == [];
  }

  class RelayServer {
    var players: map<PlayerId, Conn>
    var parties: map<PartyId, seq<PlayerId>>
    var lobby: seq<PlayerId>

    /** The three stores as one value. */
    function Stores(): State
      reads this
    {
      State(players, parties, lobby)
    }

    constructor ()
      ensures Stores() == Initial()
    {
      players, parties, lobby := map[], map[], [];
    }

    /** One `sendToPlayer` per listed member; nothing for an unknown party. */
    method SendToParty(partyId: PartyId, msg: Payload, open: set<Conn>) returns (out: seq<Delivery>)
      ensures partyId in parties ==> out == FanOut(players, open, parties[partyId], msg)
      ensures partyId !in parties ==> out == []
    {
      out := [];
      if partyId in parties {
        var party, registered := parties[partyId], players;
        for i := 0 to |party|
          invariant out + FanOut(registered, open, party[i..], msg) == FanOut(registered, open, party, msg)
        {
          FanOutFrom(registered, open, party, msg, i, out);
          var one := Routing.SendToPlayer(registered, open, party[i], msg);
          out := out + one;
        }
        assert party[|party|..] == [];
      }
    }

    /** The `lobbyMessage` loop: one `sendToPlayer` per lobby entry. */
    method SendToLobby(msg: Payload, open: set<Conn>) returns (out: seq<Delivery>)
      ensures out == FanOut(players, open, lobby, msg)
    {
      out := [];
      var entries, registered := lobby, players;
      for i := 0 to |entries|
        invariant out + FanOut(registered, open, entries[i..], msg) == FanOut(registered, open, entries, msg)
      {
        FanOutFrom(registered, open, entries, msg, i, out);
        var one := Routing.SendToPlayer(registered, open, entries[i], msg);
        out := out + one;
      }
      assert entries[|entries|..] == [];
    }

    method Register(ws: Conn, playerId: PlayerId)
      modifies this
      ensures Stores() == Directory.Register(old(Stores()), playerId, ws)
    {
      players := players[playerId := ws];
      lobby := lobby + [playerId];
    }

    method CreateParty(playerId: PlayerId, partyId: PartyId)
      modifies this
      ensures Stores() == Directory.CreateParty(old(Stores()), partyId, playerId)
    {
      if partyId !in parties {
        parties := parties[partyId := [playerId]];
      }
    }

    method JoinParty(playerId: PlayerId, partyId: PartyId)
      modifies this
      ensures Stores() == Directory.JoinParty(old(Stores()), partyId, playerId)
    {
      if partyId !in parties {
        return;
      }
      parties := parties[partyId := parties[partyId] + [playerId]];
    }

    method LeaveParty(playerId: PlayerId, partyId: PartyId)
      modifies this
      ensures Stores() == Directory.LeaveParty(old(Stores()), partyId, playerId)
    {
      if partyId in parties {
        parties := parties[partyId := Without(parties[partyId], playerId)];
      }
    }

    /** The inner `parties.forEach` of the `close` handler: filter one id out
        of every party, one party at a time. */
    method StripFromParties(playerId: PlayerId)
      modifies this
      ensures players == old(players) && lobby == old(lobby)
      ensures parties.Keys == old(parties).Keys
      ensures forall p :: p in parties ==> parties[p] == Without(old(parties)[p], playerId)
    {
      var pending := parties.Keys;
      ghost var done: set<PartyId> := {};
      while pending != {}
        invariant pending + done == old(parties).Keys && pending !! done
        invariant players == old(players) && lobby == old(lobby)
        invariant parties.Keys == old(parties).Keys
        invariant forall p :: p in done ==> parties[p] == Without(old(parties)[p], playerId)
        invariant forall p :: p in pending ==> parties[p] == old(parties)[p]
        decreases pending
      {
        var partyId :| partyId in pending;
        parties := parties[partyId := Without(parties[partyId], playerId)];
        pending := pending - {partyId};
        done := done + {partyId};
      }
    }

    /** The first `players.forEach` of the `close` handler: filter every
        registered id out of every party. */
    method StripRegisteredFromParties()
      modifies this
      ensures players == old(players) && lobby == old(lobby)
      ensures parties == StripParties(old(parties), players.Keys)
    {
      forall p | p in parties
        ensures WithoutAll(parties[p], {}) == parties[p]
      {
        WithoutAllNoop(parties[p], {});
      }
      var pending := players.Keys;
      ghost var stripped: set<PlayerId> := {};
      while pending != {}
        invariant pending + stripped == old(players).Keys && pending !! stripped
        invariant players == old(players) && lobby == old(lobby)
        invariant parties == StripParties(old(parties), stripped)
        decreases pending
      {
        var playerId :| playerId in pending;
        StripFromParties(playerId);
        forall p | p in parties
          ensures parties[p] == WithoutAll(old(parties)[p], stripped + {playerId})
        {
          WithoutAllStep(old(parties)[p], stripped, playerId);
        }
        pending := pending - {playerId};
        stripped := stripped + {playerId};
      }
    }

    /** The second `players.forEach` of the `close` handler: delete each id
        bound to `ws` from `players` and filter it out of the lobby. */
    method DropConnection(ws: Conn)
      modifies this
      ensures parties == old(parties)
      ensures players == map k | k in old(players) && k !in BoundTo(old(players), ws) :: old(players)[k]
      ensures lobby == WithoutAll(old(lobby), BoundTo(old(players), ws))
    {
      WithoutAllNoop(lobby, {});
      var rest := players.Keys;
      ghost var seen: set<PlayerId> := {};
      ghost var gone: set<PlayerId> := {};
      while rest != {}
        invariant rest + seen == old(players).Keys && rest !! seen
        invariant gone == set k | k in seen && old(players)[k] == ws
        invariant players == map k | k in old(players) && k !in gone :: old(players)[k]
        invariant lobby == WithoutAll(old(lobby), gone)
        invariant parties == old(parties)
        decreases rest
      {
        var playerId :| playerId in rest;
        if players[playerId] == ws {
          players := players - {playerId};
          WithoutAllStep(old(lobby), gone, playerId);
          lobby := Without(lobby, playerId);
          gone := gone + {playerId};
        }
        rest := rest - {playerId};
        seen := seen + {playerId};
      }
      assert gone == BoundTo(old(players), ws);
    }

    /** The `close` handler of connection `ws`. */
    method Close(ws: Conn)
      modifies this
      ensures Stores() == Directory.Close(old(Stores()), ws)
    {
      StripRegisteredFromParties();
      DropConnection(ws);
    }

    /** One inbound message from connection `ws`: update the stores and
        return the sends it makes, in order. */
    method HandleMessage(ws: Conn, ev: Event, open: set<Conn>, clients: seq<Conn>) returns (out: seq<Delivery>)
      modifies this
      ensures Stores() == Next(old(Stores()), ev, ws)
      ensures out == Deliveries(old(Stores()), ev, open, clients)
    {
      out := [];
      match ev
      case Register(playerId) =>
        Register(ws, playerId);
      case CreateParty(playerId, partyId) =>
        CreateParty(playerId, partyId);
      case JoinParty(playerId, partyId) =>
        JoinParty(playerId, partyId);
      case LeaveParty(playerId, partyId) =>
        LeaveParty(playerId, partyId);
      case PrivateMessage(playerId, target, text) =>
        out := Routing.SendToPlayer(players, open, target, Payload(playerId, text));
      case PartyMessage(playerId, partyId, text) =>
        out := SendToParty(partyId, Payload(playerId, text), open);
      case GlobalMessage(playerId, text) =>
        out := SendToAll(clients, open, Payload(playerId, text));
      case LobbyMessage(playerId, text) =>
        out := SendToLobby(Payload(playerId, text), open);
      case Unknown(_) =>
      case Malformed =>
    }
  }
}
