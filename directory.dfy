/**
 * The session directory of the relay server: which player id is bound to
 * which connection, which ids each party lists, and which ids the lobby
 * lists. Each state-changing message handler of server.js is a function from
 * the directory before the message to the directory after it.
 */
module Directory {
  import opened Filter

  type PlayerId = string
  type PartyId = string

  /** A live connection, compared by identity (`===`) only. */
  datatype Conn = Conn(handle: nat)

  /** The three module-level stores: `players`, `parties` and `lobby`. */
  datatype State = State(
    players: map<PlayerId, Conn>,
    parties: map<PartyId, seq<PlayerId>>,
    lobby: seq<PlayerId>)

  /** The stores when the server starts. */
  function Initial(): (s: State)
    ensures |s.players| == 0 && |s.parties| == 0 && |s.lobby| == 0
  {
    State(map[], map[], [])
  }

  /** `register`: bind `id` to the sending connection `ws` (overwriting any
      earlier binding) and append `id` to the lobby, duplicate or not. */
  function Register(s: State, id: PlayerId, ws: Conn): (t: State)
    ensures t.players.Keys == s.players.Keys + {id} && t.players[id] == ws
    ensures forall k :: k in s.players && k != id ==> t.players[k] == s.players[k]
    ensures |t.lobby| == |s.lobby| + 1 && t.lobby[..|s.lobby|] == s.lobby && t.lobby[|s.lobby|] == id
    ensures multiset(t.lobby)[id] == multiset(s.lobby)[id] + 1
    ensures t.parties == s.parties
  {
    var t := State(s.players[id := ws], s.parties, s.lobby + [id]);
    assert t.lobby[..|s.lobby|] == s.lobby;
    t
  }

  /** `createParty`: the first creator of `pid` becomes its only member; a
      party id that already exists is left as it is. */
  function CreateParty(s: State, pid: PartyId, id: PlayerId): (t: State)
    ensures pid in t.parties
    ensures pid !in s.parties ==> t.parties[pid] == [id]
    ensures pid in s.parties ==> t == s
    ensures t.parties.Keys == s.parties.Keys + {pid}
    ensures forall q :: q in s.parties && q != pid ==> t.parties[q] == s.parties[q]
    ensures t.players == s.players && t.lobby == s.lobby
  {
    if pid !in s.parties then s.(parties := s.parties[pid := [id]]) else s
  }

  /** `joinParty`: append `id` to the member list of an existing party, even
      when it is listed already; an unknown party id changes nothing. */
  function JoinParty(s: State, pid: PartyId, id: PlayerId): (t: State)
    ensures pid !in s.parties ==> t == s
    ensures pid in s.parties ==> pid in t.parties && t.parties[pid] == s.parties[pid] + [id]
    ensures t.parties.Keys == s.parties.Keys
    ensures forall q :: q in s.parties && q != pid ==> t.parties[q] == s.parties[q]
    ensures t.players == s.players && t.lobby == s.lobby
  {
    if pid in s.parties then s.(parties := s.parties[pid := s.parties[pid] + [id]]) else s
  }

  /** `leaveParty`: drop every occurrence of `id` from one existing party. */
  function LeaveParty(s: State, pid: PartyId, id: PlayerId): (t: State)
    ensures pid !in s.parties ==> t == s
    ensures pid in s.parties ==> pid in t.parties && id !in t.parties[pid]
    ensures pid in s.parties ==> forall y :: y != id ==> (y in t.parties[pid] <==> y in s.parties[pid])
    ensures t.parties.Keys == s.parties.Keys
    ensures forall q :: q in s.parties && q != pid ==> t.parties[q] == s.parties[q]
    ensures t.players == s.players && t.lobby == s.lobby
  {
    if pid in s.parties then s.(parties := s.parties[pid := Without(s.parties[pid], id)]) else s
  }

  /** Every party with each id of `ids` filtered out of its member list. */
  function StripParties(parties: map<PartyId, seq<PlayerId>>, ids: set<PlayerId>): (r: map<PartyId, seq<PlayerId>>)
    ensures r.Keys == parties.Keys
    ensures forall p :: p in r ==> forall y :: y in r[p] <==> y in parties[p] && y !in ids
  {
    map p | p in parties :: WithoutAll(parties[p], ids)
  }

  /** The ids bound to connection `ws`. */
  function BoundTo(players: map<PlayerId, Conn>, ws: Conn): (ids: set<PlayerId>)
    ensures forall k :: k in ids <==> k in players && players[k] == ws
  {
    set k | k in players && players[k] == ws
  }

  /** The `close` handler of connection `ws`. Its first loop strips every
      id registered at that moment (not only the ids bound to `ws`) from
      every party; its second loop deletes the ids bound to `ws` from
      `players` and filters those same ids out of the lobby. */
  function Close(s: State, ws: Conn): (t: State)
    ensures t.parties.Keys == s.parties.Keys
    ensures forall p, k :: p in t.parties && k in s.players ==> k !in t.parties[p]
    ensures forall p, y :: p in t.parties && y !in s.players ==> (y in t.parties[p] <==> y in s.parties[p])
    ensures t.players.Keys == s.players.Keys - BoundTo(s.players, ws)
    ensures forall k :: k in t.players ==> t.players[k] == s.players[k] && t.players[k] != ws
    ensures forall y :: y in t.lobby <==> y in s.lobby && y !in BoundTo(s.players, ws)
  {
    var gone := BoundTo(s.players, ws);
    State(
      map k | k in s.players && k !in gone :: s.players[k],
      StripParties(s.parties, s.players.Keys),
      WithoutAll(s.lobby, gone))
  }

  // ---------------------------------------------------------------------
  // Properties that relate several messages
  // ---------------------------------------------------------------------

  /** Registering the same id twice lists it twice more in the lobby; the
      second connection wins the binding. */
  lemma RegisterTwice(s: State, id: PlayerId, ws1: Conn, ws2: Conn)
    ensures var t := Register(Register(s, id, ws1), id, ws2);
      t.players[id] == ws2 && multiset(t.lobby)[id] == multiset(s.lobby)[id] + 2
  {
  }

  /** Joining is not idempotent: a second join lists the player once more. */
  lemma JoinPartyNotIdempotent(s: State, pid: PartyId, id: PlayerId)
    requires pid in s.parties
    ensures var once := JoinParty(s, pid, id);
      var twice := JoinParty(once, pid, id);
      twice != once && multiset(twice.parties[pid])[id] == multiset(s.parties[pid])[id] + 2
  {
  }

  /** Leaving removes the entry a join appended together with the older
      ones: join then leave is the same as leave alone. */
  lemma JoinThenLeave(s: State, pid: PartyId, id: PlayerId)
    ensures LeaveParty(JoinParty(s, pid, id), pid, id) == LeaveParty(s, pid, id)
  {
    if pid in s.parties {
      var members := s.parties[pid];
      WithoutIsWithoutAll(members + [id], id);
      WithoutIsWithoutAll(members, id);
      WithoutIsWithoutAll([id], id);
      WithoutAllAppend(members, [id], {id});
      assert WithoutAll([id], {id}) == [];
      assert Without(members + [id], id) == Without(members, id);
    }
  }

  /** `leaveParty` keeps each other member exactly as often as before, in the
      original order. */
  lemma LeavePartyKeepsOthers(s: State, pid: PartyId, id: PlayerId, y: PlayerId)
    requires pid in s.parties && y != id
    ensures var t := LeaveParty(s, pid, id);
      multiset(t.parties[pid])[y] == multiset(s.parties[pid])[y]
      && SubsequenceOf(t.parties[pid], s.parties[pid])
  {
    WithoutIsWithoutAll(s.parties[pid], id);
    WithoutAllCount(s.parties[pid], {id}, y);
    WithoutAllIsSubsequence(s.parties[pid], {id});
  }

  /** After `close`, every party keeps its unregistered ids, each as often as
      before and in the original order. */
  lemma CloseKeepsUnregistered(s: State, ws: Conn, p: PartyId, y: PlayerId)
    requires p in s.parties && y !in s.players
    ensures var t := Close(s, ws);
      multiset(t.parties[p])[y] == multiset(s.parties[p])[y]
      && SubsequenceOf(t.parties[p], s.parties[p])
  {
    WithoutAllCount(s.parties[p], s.players.Keys, y);
    WithoutAllIsSubsequence(s.parties[p], s.players.Keys);
  }

  /** After `close`, the lobby keeps every entry not bound to the closing
      connection, each as often as before and in the original order. */
  lemma CloseKeepsLobby(s: State, ws: Conn, y: PlayerId)
    requires y !in s.players || s.players[y] != ws
    ensures var t := Close(s, ws);
      multiset(t.lobby)[y] == multiset(s.lobby)[y] && SubsequenceOf(t.lobby, s.lobby)
  {
    WithoutAllCount(s.lobby, BoundTo(s.players, ws), y);
    WithoutAllIsSubsequence(s.lobby, BoundTo(s.players, ws));
  }

  /** `close` of one connection also drops players that are still connected
      on another connection from every party they were in, while they stay
      registered and in the lobby. */
  lemma CloseStripsOtherConnections(s: State, ws: Conn, other: PlayerId, p: PartyId)
    requires other in s.players && s.players[other] != ws
    requires p in s.parties && other in s.parties[p]
    ensures var t := Close(s, ws);
      other in t.players && other !in t.parties[p] && (other in s.lobby ==> other in t.lobby)
  {
  }

  /** A second `close` of the same connection changes nothing. */
  lemma CloseIdempotent(s: State, ws: Conn)
    ensures Close(Close(s, ws), ws) == Close(s, ws)
  {
    var t := Close(s, ws);
    var u := Close(t, ws);
    assert BoundTo(t.players, ws) == {};
    WithoutAllNoop(t.lobby, {});
    forall p | p in t.parties
      ensures u.parties[p] == t.parties[p]
    {
      WithoutAllNoop(t.parties[p], t.players.Keys);
    }
    assert u.players == t.players;
  }
}
