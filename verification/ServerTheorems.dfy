/** What the clients of the signaling server may rely on, in every reachable state. */
module ServerTheorems {
  import opened Prelude
  import opened Protocol
  import opened Rooms
  import opened ServerRuns
  import opened ServerInvariant
  import ServerSteps
  import ServerLines
  import ServerRanks
  import ServerPairing

  // --- Rooms ---------------------------------------------------------------------------

  /** Every room has one or two peers, its creator among them; a selected family has an
      endpoint on both sides; only a full room can have failed. */
  lemma EveryRoomIsWellFormed(w: World, id: RoomId)
    requires Reachable(w) && id in w.server.rooms
    ensures
      var room := w.server.rooms[id];
      && 1 <= |room.peers| <= 2 && room.creator in room.peers
      && (room.selected.Some? ==> |room.peers| == 2 && AllHave(room.peers, room.selected.value))
      && (room.failed ==> |room.peers| == 2)
  {
    ServerRanks.ReachableInv(w);
    assert WellFormed(w.server.rooms[id]);
  }

  /** A client is in one room at most, the one its handler remembers. */
  lemma OneRoomPerClient(w: World, a: RoomId, b: RoomId, client: ClientId)
    requires Reachable(w) && a in w.server.rooms && b in w.server.rooms
    requires client in w.server.rooms[a].peers && client in w.server.rooms[b].peers
    ensures a == b && client in w.sessions && w.sessions[client].current == Some(a)
  {
    ServerRanks.ReachableInv(w);
    assert IsMember(w, a, client) && IsMember(w, b, client);
  }

  /** The registration loop stops at the first room that has the client; in whatever order
      the table yields the rooms, the outcome is the same. */
  lemma RegistrationIgnoresOrder(w: World, client: ClientId, address: Address, first: seq<RoomId>, second: seq<RoomId>)
    requires Reachable(w)
    requires Enumerates(first, w.server.rooms.Keys) && Enumerates(second, w.server.rooms.Keys)
    ensures Register(w.server, client, address, first) == Register(w.server, client, address, second)
  {
    var a, b := RoomOf(w.server.rooms, client, first), RoomOf(w.server.rooms, client, second);
    assert forall id | id in w.server.rooms :: id in first && id in second;
    hide Reachable;
    if a.Some? && b.Some? {
      OneRoomPerClient(w, a.value, b.value, client);
    }
    hide Register, Enumerates;
    assert a == b;
    SameRoomSameOutcome(w.server, client, address, first, second);
  }

  lemma SameRoomSameOutcome(s: Server, client: ClientId, address: Address, first: seq<RoomId>, second: seq<RoomId>)
    requires RoomOf(s.rooms, client, first) == RoomOf(s.rooms, client, second)
    ensures Register(s, client, address, first) == Register(s, client, address, second)
  {
    hide Exchange, Merge, CommonFamily;
  }

  // --- Transcripts ---------------------------------------------------------------------

  /** In what any client is ever sent, between two resets (entering, `PEER_LEFT`,
      `REFRESH_UDP`) there are at most two exchanges, the second for IPv4 after one for
      IPv6, at most one `P2P_DISCONNECTED`, and no exchange after that. */
  lemma TranscriptsAreOrderly(w: World, client: ClientId, i: nat, j: nat)
    requires Reachable(w) && i < j < |LinesTo(w.heard, client)| && NoResetBetween(LinesTo(w.heard, client), i, j)
    ensures
      var lines := LinesTo(w.heard, client);
      && (lines[i].Peer? && lines[j].Peer? ==> lines[i].endpoint.Family() == V6 && lines[j].endpoint.Family() == V4)
      && (IsDisconnect(lines[i]) ==> !IsDisconnect(lines[j]) && !lines[j].Peer?)
  {
    hide PhaseOf;
    ServerRanks.ReachableInv(w);
    OrderlyTranscript(LinesTo(w.heard, client), i, j);
  }

  // --- Exchanges -----------------------------------------------------------------------

  function PeerLines(lines: seq<Line>): seq<Line> {
    if lines == [] then []
    else PeerLines(lines[..|lines| - 1]) + (if lines[|lines| - 1].Peer? then [lines[|lines| - 1]] else [])
  }

  /** The two members of the room, and nobody else, are sent one PEER line each. */
  ghost predicate Exchanges(s: Server, out: Out, id: RoomId, family: Family) {
    && id in s.rooms
    && |s.rooms[id].peers| == 2 && AllHave(s.rooms[id].peers, family)
    && s.rooms[id].selected == Some(family)
    && forall client :: PeerLines(LinesTo(out, client)) ==
         if client in s.rooms[id].peers then [PeerLine(s.rooms[id], family, client)] else []
  }

  ghost predicate NoExchange(out: Out) {
    forall client, line | line in LinesTo(out, client) :: !line.Peer?
  }

  lemma {:induction false} NoPeerLines(lines: seq<Line>)
    requires forall line | line in lines :: !line.Peer?
    ensures PeerLines(lines) == []
  {
    if lines != [] {
      assert lines[|lines| - 1] in lines;
      NoPeerLines(lines[..|lines| - 1]);
    }
  }

  lemma OnePeerLine(before: seq<Line>, line: Line)
    requires line.Peer? && forall l | l in before :: !l.Peer?
    ensures PeerLines(before + [line]) == [line]
  {
    NoPeerLines(before);
    assert (before + [line])[..|before|] == before;
  }

  lemma LinesOfExchange(room: Room, family: Family, notice: Out, client: ClientId)
    requires |room.peers| == 2 && AllHave(room.peers, family) && NoExchange(notice)
    ensures
      PeerLines(LinesTo(Merge(notice, Exchange(room, family)), client)) ==
      if client in room.peers then [PeerLine(room, family, client)] else []
  {
    hide PeerLines, AllHave;
    var before := LinesTo(notice, client);
    ServerSteps.MergedLines(notice, Exchange(room, family), client);
    hide Merge;
    if client in room.peers {
      OnePeerLine(before, PeerLine(room, family, client));
    } else {
      NoPeerLines(before);
      assert before + [] == before;
    }
  }

  lemma ExchangeExchanges(s: Server, out: Out, id: RoomId, family: Family, notice: Out)
    requires id in s.rooms && |s.rooms[id].peers| == 2 && AllHave(s.rooms[id].peers, family)
    requires s.rooms[id].selected == Some(family)
    requires NoExchange(notice) && out == Merge(notice, Exchange(s.rooms[id], family))
    ensures Exchanges(s, out, id, family)
  {
    hide PeerLines, Merge, AllHave, PeerLine, LinesTo, Exchange, NoExchange;
    forall client
      ensures PeerLines(LinesTo(out, client)) ==
              if client in s.rooms[id].peers then [PeerLine(s.rooms[id], family, client)] else []
    {
      LinesOfExchange(s.rooms[id], family, notice, client);
    }
  }

  /** A change sends no PEER line at all, or makes one exchange. */
  ghost predicate ExchangesOnce(change: Change) {
    NoExchange(change.out) || exists id, family :: Exchanges(change.server, change.out, id, family)
  }

  lemma QuietIsNoExchange(out: Out)
    requires ServerSteps.IsQuiet(out)
    ensures NoExchange(out)
  {
    forall client, line | line in LinesTo(out, client) ensures !line.Peer? {
      assert Neutral(line);
    }
  }

  lemma RegisterExchanges(s: Server, client: ClientId, address: Address, order: seq<RoomId>)
    ensures ExchangesOnce(Register(s, client, address, order))
  {
    hide Exchanges, Merge, Exchange, CommonFamily;
    var change := Register(s, client, address, order);
    var notice: Out := if client in s.clients then map[client := [RegisteredText(address.Family())]] else map[];
    var found := RoomOf(s.rooms, client, order);
    if found.Some? {
      var room := Located(s.rooms[found.value], client, address);
      if ReadyToPair(room) {
        var family := CommonFamily(room.peers).value;
        ServerSteps.ExchangeIgnoresSelection(room, family);
        ExchangeExchanges(change.server, change.out, found.value, family, notice);
      }
    }
  }

  lemma RoomCommandExchanges(s: Server, client: ClientId, room: RoomId, command: string, now: Instant)
    ensures ExchangesOnce(RoomCommand(s, client, room, command, now))
  {
    hide Exchanges, Merge, Exchange, AllHave;
    var change := RoomCommand(s, client, room, command, now);
    if command == "P2P_RETRY" && room in s.rooms && CanRetry(s.rooms[room], client, V4) {
      ServerSteps.ExchangeIgnoresSelection(s.rooms[room], V4);
      ServerSteps.MergeWithNothing(change.out);
      ExchangeExchanges(change.server, change.out, room, V4, map[]);
    }
  }

  lemma LeaveExchanges(s: Server, client: ClientId, current: Option<RoomId>, env: Env)
    ensures NoExchange(HandleLeave(s, client, current, env).change.out)
    ensures NoExchange(Goodbye(s, client, current, env).out)
  {
    var said: Out := map[client := [Text("LEFT")]];
    var left: Out := if current.Some? then LeaveRoom(s, current.value, client, env.heirs, env.now).out else map[];
    assert NoExchange(left);
    hide LeaveRoom;
    forall other, line | line in LinesTo(Merge(left, said), other) ensures !line.Peer? {
      ServerSteps.MergedLines(left, said, other);
    }
  }

  lemma EntranceExchanges(s: Server, client: ClientId, command: string, args: seq<string>, env: Env)
    requires IsEntrance(command)
    ensures NoExchange(HandleEntrance(s, client, command, args, env).change.out)
  {
    hide IsId, DecodeTitle, PublicIds, TitleToken;
  }

  lemma MemberExchanges(s: Server, client: ClientId, current: Option<RoomId>, command: string, args: seq<string>, env: Env)
    ensures ExchangesOnce(HandleMember(s, client, current, command, args, env).change)
  {
    hide Exchanges, RoomCommand, HandleLeave, PublicList;
    LeaveExchanges(s, client, current, env);
    ServerLines.ListingIsQuiet(s, client, env.listing);
    QuietIsNoExchange(map[client := PublicList(s, env.listing)]);
    if current.Some? {
      RoomCommandExchanges(s, client, current.value, command, env.now);
    }
  }

  lemma LineExchanges(s: Server, client: ClientId, current: Option<RoomId>, parts: seq<string>, env: Env)
    ensures ExchangesOnce(HandleLine(s, client, current, parts, env).change)
  {
    hide Exchanges, HandleEntrance, HandleMember;
    if parts != [] && IsEntrance(parts[0]) {
      EntranceExchanges(s, client, parts[0], parts[1..], env);
    }
    if parts != [] {
      MemberExchanges(s, client, current, parts[0], parts[1..], env);
    }
  }

  lemma StepExchanges(w: World, step: Step)
    requires Enabled(w, step)
    ensures ExchangesOnce(ChangeOf(w, step))
  {
    hide Exchanges, HandleLine, Register, Goodbye, Plausible, Enumerates, Expired, ExpiryNotices;
    match step
    case Say(client, parts, env) =>
      LineExchanges(w.server, client, w.sessions[client].current, parts, env);
    case Locate(client, address, order, _) =>
      RegisterExchanges(w.server, client, address, order);
    case Sweep(ids, now) =>
      ServerLines.ExpiryIsQuiet(w.server.rooms, ids);
      QuietIsNoExchange(ExpiryNotices(w.server.rooms, ids));
    case Hangup(client, env) =>
      LeaveExchanges(w.server, client, w.sessions[client].current, env);
    case _ =>
  }

  /** `client` and `other` are the two members of the room `id` and each is sent one PEER
      line: with the endpoint the other registered in the selected family, as initiator
      exactly when it is the creator, and with the nonce it was told on entering. */
  ghost predicate Mutual(v: World, out: Out, id: RoomId, client: ClientId, other: ClientId) {
    && id in v.server.rooms
    && var room := v.server.rooms[id];
       var a, b := PeerLines(LinesTo(out, client)), PeerLines(LinesTo(out, other));
       && room.peers.Keys == {client, other} && client != other
       && room.selected.Some? && AllHave(room.peers, room.selected.value)
       && a == [Peer(room.peers[other].Get(room.selected.value).value, if client == room.creator then I else R, room.sessionNonce)]
       && b == [Peer(room.peers[client].Get(room.selected.value).value, if other == room.creator then I else R, room.sessionNonce)]
       && (client == room.creator <==> other != room.creator)
       && NonceOf(LinesTo(v.heard, client)) == Some(room.sessionNonce)
       && NonceOf(LinesTo(v.heard, other)) == Some(room.sessionNonce)
       && forall c | c !in room.peers :: PeerLines(LinesTo(out, c)) == []
  }

  /** Whenever a step sends a client a PEER line, it makes one exchange between the two
      members of that client's room. */
  lemma ExchangesAreMutual(w: World, step: Step, client: ClientId) returns (id: RoomId, other: ClientId)
    requires Reachable(w) && Enabled(w, step) && PeerLines(LinesTo(ChangeOf(w, step).out, client)) != []
    ensures Mutual(Apply(w, step), ChangeOf(w, step).out, id, client, other)
  {
    hide Reachable, Enabled, ChangeOf, PeerLines, NonceOf, PhaseOf, Inv, Exchanges, NoExchange, ExchangesOnce, LinesTo, SessionsAfter, Merge;
    var v := Apply(w, step);
    ServerRanks.ReachableInv(w);
    ServerRanks.StepKeepsInv(w, step);
    StepExchanges(w, step);
    var family;
    id, family := FindExchange(ChangeOf(w, step), client);
    other := MutualLines(v, ChangeOf(w, step).out, id, family, client);
  }

  lemma FindExchange(change: Change, client: ClientId) returns (id: RoomId, family: Family)
    requires ExchangesOnce(change) && PeerLines(LinesTo(change.out, client)) != []
    ensures Exchanges(change.server, change.out, id, family)
  {
    hide PeerLines, LinesTo, Exchanges;
    if NoExchange(change.out) {
      NoPeerLines(LinesTo(change.out, client));
    }
    id, family :| Exchanges(change.server, change.out, id, family);
  }

  lemma MembersKnowTheNonce(v: World, id: RoomId, client: ClientId)
    requires Inv(v) && id in v.server.rooms && client in v.server.rooms[id].peers
    ensures NonceOf(LinesTo(v.heard, client)) == Some(v.server.rooms[id].sessionNonce)
    ensures v.server.rooms[id].creator in v.server.rooms[id].peers
  {
    hide NonceOf, PhaseOf;
    assert IsMember(v, id, client) && WellFormed(v.server.rooms[id]);
  }

  lemma MutualLines(v: World, out: Out, id: RoomId, family: Family, client: ClientId) returns (other: ClientId)
    requires Inv(v) && Exchanges(v.server, out, id, family) && PeerLines(LinesTo(out, client)) != []
    ensures Mutual(v, out, id, client, other)
  {
    hide PeerLines, LinesTo, Inv, NonceOf, AllHave, PeerLine;
    var room := v.server.rooms[id];
    assert client in room.peers;
    other := Other(room.peers, client);
    PeerLineIs(room, family, client, other);
    PeerLineIs(room, family, other, client);
    MembersKnowTheNonce(v, id, client);
    MembersKnowTheNonce(v, id, other);
    assert room.creator in room.peers.Keys;
  }

  // --- The match timeout ---------------------------------------------------------------

  /** With fresh room ids, a match timeout that reports no common family, in a room not
      marked failed, is right. */
  lemma UnavailableMeansNoCommonFamily(w: World, timer: Timer)
    requires ReachableWithFreshIds(w) && MatchTimeout(w.server, timer) != map[]
    ensures
      && timer.room in w.server.rooms
      && var room := w.server.rooms[timer.room];
         |room.peers| == 2 && (room.failed || CommonFamily(room.peers).None?)
  {
    hide ReachableWithFreshIds, Inv, ServerPairing.Attached;
    ServerPairing.PairingIsComplete(w);
    assert ServerPairing.Complete(w.server.rooms[timer.room]);
  }

  // --- Public rooms --------------------------------------------------------------------

  /** There are never more than 100 public rooms; until the counter has moved 2^64 times,
      no two have the same rank; titles are normalised. */
  lemma PublicRoomsAreBounded(w: World)
    requires Reachable(w)
    ensures |set id | id in w.server.rooms && w.server.rooms[id].kind.Public?| <= 100
    ensures w.bumps <= MAX_U64 ==> Ranked(w.server)
    ensures forall id | id in PublicIds(w.server) :: IsTitle(w.server.rooms[id].kind.title) && IsId(id)
  {
    hide IsTitle, IsId;
    ServerRanks.ReachableInv(w);
    forall id | id in PublicIds(w.server) ensures IsTitle(w.server.rooms[id].kind.title) {
      assert WellFormed(w.server.rooms[id]);
    }
  }
}
