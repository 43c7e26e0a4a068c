/** Every step of the signaling server keeps its invariant. */
module ServerSteps {
  import opened Prelude
  import opened Protocol
  import opened Rooms
  import opened ServerRuns
  import opened ServerInvariant

  ghost predicate Sound(w: World) {
    RoomsAreWellFormed(w.server) && MembersAgree(w) && Orderly(w)
  }

  /** `v` is `w` after a change of the room `id`; only the clients in `affected` are moved
      or hear anything of weight. */
  lemma Keeps(w: World, v: World, out: Out, id: RoomId, affected: set<ClientId>)
    requires Sound(w) && v.heard == Merge(w.heard, out)
    requires forall other | other != id :: other in v.server.rooms <==> other in w.server.rooms
    requires forall other | other != id && other in w.server.rooms :: v.server.rooms[other] == w.server.rooms[other]
    requires forall client | client !in affected :: Undisturbed(w, v, out, client)
    requires forall client | client in affected :: OnlyIn(w, id, client) && PhaseOf(LinesTo(v.heard, client)).Some?
    requires id in v.server.rooms ==>
               && IsId(id)
               && WellFormed(v.server.rooms[id])
               && forall client | client in v.server.rooms[id].peers :: IsMember(v, id, client)
    ensures Sound(v)
  {
    hide PhaseOf, NonceOf, Merge, WellFormed, IsMember, Undisturbed, OnlyIn;
    forall client | client !in affected ensures PhaseOf(LinesTo(v.heard, client)).Some? {
      StillOrderly(w, v, out, client);
    }
    TouchKeeps(w, v, out, id);
  }

  lemma StillOrderly(w: World, v: World, out: Out, client: ClientId)
    requires Undisturbed(w, v, out, client) && v.heard == Merge(w.heard, out)
    requires PhaseOf(LinesTo(w.heard, client)).Some?
    ensures PhaseOf(LinesTo(v.heard, client)).Some?
  {
    HeardAppends(w, out, client);
    NeutralLines(LinesTo(w.heard, client), LinesTo(out, client));
  }

  /** What a client has heard after one more line. */
  lemma HearsOne(w: World, out: Out, client: ClientId, line: Line)
    requires LinesTo(out, client) == [line]
    ensures
      var before, after := LinesTo(w.heard, client), LinesTo(Merge(w.heard, out), client);
      && PhaseOf(after) == NextPhase(PhaseOf(before), line)
      && NonceOf(after) == (if IsAdmission(line) then Some(line.nonce) else NonceOf(before))
  {
    HeardAppends(w, out, client);
    OneLine(LinesTo(w.heard, client), line);
  }

  lemma HearsNothing(w: World, out: Out, client: ClientId)
    requires LinesTo(out, client) == []
    ensures LinesTo(Merge(w.heard, out), client) == LinesTo(w.heard, client)
  {
    HeardAppends(w, out, client);
    assert LinesTo(w.heard, client) + [] == LinesTo(w.heard, client);
  }

  lemma AsMember(w: World, id: RoomId, client: ClientId)
    requires Sound(w) && id in w.server.rooms && client in w.server.rooms[id].peers
    ensures IsMember(w, id, client)
  {
  }

  lemma AsRoom(w: World, id: RoomId)
    requires Sound(w) && id in w.server.rooms
    ensures IsId(id) && WellFormed(w.server.rooms[id])
  {
    hide IsId, WellFormed;
  }

  lemma AsClient(w: World, client: ClientId)
    requires Sound(w)
    ensures PhaseOf(LinesTo(w.heard, client)).Some?
  {
    hide PhaseOf;
  }

  // --- Entering ------------------------------------------------------------------------

  lemma NewRoomKeeps(w: World, v: World, id: RoomId, client: ClientId, kind: Kind, now: Instant, line: Line)
    requires Sound(w) && id !in w.server.rooms && IsId(id) && (kind.Public? ==> IsTitle(kind.title))
    requires client in w.sessions && w.sessions[client].current.None? && IsAdmission(line)
    requires v.server.rooms == w.server.rooms[id := NewRoom(client, kind, line.nonce, now)]
    requires v.heard == Merge(w.heard, map[client := [line]])
    requires v.sessions == w.sessions[client := Session(Some(id), true)]
    ensures Sound(v)
  {
    hide PhaseOf, NonceOf, Merge, IsId, IsTitle, Sound;
    AsClient(w, client);
    HearsOne(w, map[client := [line]], client, line);
    Keeps(w, v, map[client := [line]], id, {client});
  }

  lemma JoinKeeps(w: World, v: World, id: RoomId, client: ClientId, line: Line)
    requires Sound(w) && id in w.server.rooms && |w.server.rooms[id].peers| < 2
    requires client in w.sessions && w.sessions[client].current.None?
    requires IsAdmission(line) && line.nonce == w.server.rooms[id].sessionNonce
    requires
      var was := w.server.rooms[id];
      v.server.rooms == w.server.rooms[id := was.(peers := was.peers[client := NO_ENDPOINTS])]
    requires v.heard == Merge(w.heard, map[client := [line]])
    requires v.sessions == w.sessions[client := Session(Some(id), true)]
    ensures Sound(v)
  {
    hide PhaseOf, NonceOf, Merge, IsId, IsTitle, Sound, WellFormed, IsMember;
    var out: Out := map[client := [line]];
    var was, next := w.server.rooms[id], v.server.rooms[id];
    AsRoom(w, id);
    AsClient(w, client);
    JoinedRoom(was, client);
    HearsOne(w, out, client, line);
    JoinerIsMember(w, v, id, client, line);
    forall member | member in was.peers && member != client ensures IsMember(v, id, member) {
      AsMember(w, id, member);
      HearsNothing(w, out, member);
      StaysMember(w, v, id, member);
    }
    Keeps(w, v, out, id, {client});
  }

  lemma JoinedRoom(was: Room, client: ClientId)
    requires WellFormed(was) && |was.peers| < 2
    ensures WellFormed(was.(peers := was.peers[client := NO_ENDPOINTS]))
    ensures was.selected.None? && !was.failed
  {
    hide IsTitle;
    assert was.peers[client := NO_ENDPOINTS].Keys == was.peers.Keys + {client};
  }

  lemma JoinerIsMember(w: World, v: World, id: RoomId, client: ClientId, line: Line)
    requires id in v.server.rooms && client in v.sessions && v.sessions[client].current == Some(id)
    requires IsAdmission(line) && line.nonce == v.server.rooms[id].sessionNonce
    requires v.server.rooms[id].selected.None? && !v.server.rooms[id].failed
    requires NonceOf(LinesTo(v.heard, client)) == Some(line.nonce)
    requires PhaseOf(LinesTo(v.heard, client)) == NextPhase(PhaseOf(LinesTo(w.heard, client)), line)
    requires PhaseOf(LinesTo(w.heard, client)).Some?
    ensures IsMember(v, id, client)
  {
  }

  /** The room changed in nothing that a transcript shows. */
  lemma StaysMember(w: World, v: World, id: RoomId, client: ClientId)
    requires id in w.server.rooms && id in v.server.rooms && IsMember(w, id, client)
    requires client in v.sessions && v.sessions[client].current == w.sessions[client].current
    requires PhaseOf(LinesTo(v.heard, client)) == PhaseOf(LinesTo(w.heard, client))
    requires NonceOf(LinesTo(v.heard, client)) == NonceOf(LinesTo(w.heard, client))
    requires
      var was, next := w.server.rooms[id], v.server.rooms[id];
      next.sessionNonce == was.sessionNonce && next.selected == was.selected && next.failed == was.failed
    ensures IsMember(v, id, client)
  {
    hide PhaseOf, NonceOf;
  }

  // --- Leaving -------------------------------------------------------------------------

  lemma DepartedRoom(was: Room, client: ClientId, heirs: seq<ClientId>, rank: Option<u64>, now: Instant)
    requires WellFormed(was) && Enumerates(heirs, was.peers.Keys - {client})
    ensures
      var next := Departed(was, client, heirs, rank, now);
      && next.sessionNonce == was.sessionNonce && next.selected.None? && !next.failed
      && next.peers.Keys == was.peers.Keys - {client}
      && (next.peers != map[] ==> WellFormed(next))
  {
    hide IsTitle;
    var next := Departed(was, client, heirs, rank, now);
    assert next.peers.Keys == was.peers.Keys - {client};
    if next.peers != map[] {
      var heir :| heir in next.peers;
      assert heir in heirs;
      assert heirs[0] in heirs;
      assert |next.peers.Keys| > 0;
    }
  }

  /** A client leaves the room its handler is in, and is told nothing of weight. */
  lemma LeaveKeeps(w: World, v: World, out: Out, id: RoomId, client: ClientId, env: Env, more: seq<Line>)
    requires Sound(w) && client in w.sessions && w.sessions[client].current == Some(id)
    requires OrdersHeirs(w.server, id, client, env.heirs)
    requires forall line | line in more :: Neutral(line)
    requires
      var left := LeaveRoom(w.server, id, client, env.heirs, env.now);
      && v.server.rooms == left.server.rooms
      && v.heard == Merge(w.heard, out)
      && forall other :: LinesTo(out, other) == LinesTo(left.out, other) + (if other == client then more else [])
    requires v.sessions.Keys == w.sessions.Keys && v.sessions[client].current.None?
    requires forall other | other in w.sessions && other != client :: v.sessions[other] == w.sessions[other]
    ensures Sound(v)
  {
    hide PhaseOf, NonceOf, IsId, IsTitle, Sound, WellFormed, IsMember, Enumerates, LeaveRoom, Merge;
    LeaveRooms(w.server, id, client, env.heirs, env.now);
    LeaveOut(w.server, id, client, env.heirs, env.now);
    ClientHears(w, out, client, more);
    AsClient(w, client);
    if id !in w.server.rooms {
      Keeps(w, v, out, id, {client});
    } else {
      StayersKeep(w, v, out, id, client, env);
    }
  }

  lemma StayersKeep(w: World, v: World, out: Out, id: RoomId, client: ClientId, env: Env)
    requires Sound(w) && client in w.sessions && w.sessions[client].current == Some(id)
    requires id in w.server.rooms && OrdersHeirs(w.server, id, client, env.heirs)
    requires v.server.rooms == RoomsLeft(w.server, id, client, env.heirs, env.now) && v.heard == Merge(w.heard, out)
    requires v.sessions.Keys == w.sessions.Keys
    requires forall other | other in w.sessions && other != client :: v.sessions[other] == w.sessions[other]
    requires forall other | other != client ::
               LinesTo(out, other) == if other in w.server.rooms[id].peers then [Text("PEER_LEFT")] else []
    requires PhaseOf(LinesTo(v.heard, client)).Some?
    ensures Sound(v)
  {
    hide PhaseOf, NonceOf, IsId, IsTitle, Sound, WellFormed, IsMember, Enumerates, Departed, Merge, LinesTo;
    var was := w.server.rooms[id];
    var rank := if Reopens(w.server, id, client) then Some(NextId(w.server.nextRank)) else None;
    var next := Departed(was, client, env.heirs, rank, env.now);
    AsRoom(w, id);
    DepartedRoom(was, client, env.heirs, rank, env.now);
    hide Reopens;
    forall member | member in next.peers
      ensures OnlyIn(w, id, member) && PhaseOf(LinesTo(v.heard, member)).Some?
      ensures id in v.server.rooms ==> IsMember(v, id, member)
    {
      assert member in next.peers.Keys;
      AsMember(w, id, member);
      MemberHasSession(w, id, member);
      IsReadmitted(w, v, out, id, member, Text("PEER_LEFT"));
    }
    Keeps(w, v, out, id, next.peers.Keys + {client});
  }

  lemma MemberHasSession(w: World, id: RoomId, client: ClientId)
    requires id in w.server.rooms && IsMember(w, id, client)
    ensures client in w.sessions && w.sessions[client].current == Some(id)
  {
    hide InStep;
  }

  function RoomsLeft(s: Server, id: RoomId, client: ClientId, heirs: seq<ClientId>, now: Instant): map<RoomId, Room>
    requires id in s.rooms
  {
    var rank := if Reopens(s, id, client) then Some(NextId(s.nextRank)) else None;
    var next := Departed(s.rooms[id], client, heirs, rank, now);
    if next.peers == map[] then s.rooms - {id} else s.rooms[id := next]
  }

  lemma LeaveOut(s: Server, id: RoomId, client: ClientId, heirs: seq<ClientId>, now: Instant)
    ensures
      var out := LeaveRoom(s, id, client, heirs, now).out;
      forall other :: LinesTo(out, other) ==
        if id in s.rooms && other in s.rooms[id].peers && other != client then [Text("PEER_LEFT")] else []
  {
    var left := LeaveRoom(s, id, client, heirs, now).out;
    assert id in s.rooms ==> left.Keys == s.rooms[id].peers.Keys - {client};
  }

  /** A line that resets the exchange finds the room reset too. */
  lemma IsReadmitted(w: World, v: World, out: Out, id: RoomId, client: ClientId, line: Line)
    requires id in w.server.rooms && IsMember(w, id, client) && v.heard == Merge(w.heard, out)
    requires LinesTo(out, client) == [line] && IsReset(line) && !IsAdmission(line)
    requires client in v.sessions && v.sessions[client].current == w.sessions[client].current
    requires id in v.server.rooms ==>
               var next := v.server.rooms[id];
               next.sessionNonce == w.server.rooms[id].sessionNonce && next.selected.None? && !next.failed
    ensures OnlyIn(w, id, client) && PhaseOf(LinesTo(v.heard, client)).Some?
    ensures id in v.server.rooms ==> IsMember(v, id, client)
  {
    HearsOne(w, out, client, line);
    hide PhaseOf, NonceOf, Merge;
  }

  lemma LeaveRooms(s: Server, id: RoomId, client: ClientId, heirs: seq<ClientId>, now: Instant)
    ensures
      LeaveRoom(s, id, client, heirs, now).server.rooms ==
      if id in s.rooms then RoomsLeft(s, id, client, heirs, now) else s.rooms
  {
  }

  lemma ClientHears(w: World, out: Out, client: ClientId, more: seq<Line>)
    requires LinesTo(out, client) == more && forall line | line in more :: Neutral(line)
    ensures PhaseOf(LinesTo(Merge(w.heard, out), client)) == PhaseOf(LinesTo(w.heard, client))
    ensures NonceOf(LinesTo(Merge(w.heard, out), client)) == NonceOf(LinesTo(w.heard, client))
  {
    HeardAppends(w, out, client);
    NeutralLines(LinesTo(w.heard, client), more);
  }

  // --- Pairing -------------------------------------------------------------------------

  lemma ExchangeLines(room: Room, family: Family, client: ClientId)
    requires WellFormed(room) && |room.peers| == 2 && AllHave(room.peers, family)
    ensures
      var lines := LinesTo(Exchange(room, family), client);
      if client in room.peers then
        && |lines| == 1 && lines[0].Peer? && lines[0].endpoint.Family() == family && lines[0].nonce == room.sessionNonce
      else lines == []
  {
    hide WellFormed, AllHave, PeerLine;
    if client in room.peers {
      PeerLineFamily(room, family, client);
    }
  }

  lemma PeerLineFamily(room: Room, family: Family, client: ClientId)
    requires WellFormed(room) && |room.peers| == 2 && AllHave(room.peers, family) && client in room.peers
    ensures
      var line := PeerLine(room, family, client);
      line.Peer? && line.endpoint.Family() == family && line.nonce == room.sessionNonce
  {
    hide IsTitle;
    var other := Other(room.peers, client);
    assert RightFamilies(room.peers[other]);
  }

  /** An exchange finds the member's transcript ready for it. */
  lemma IsPaired(w: World, v: World, out: Out, id: RoomId, client: ClientId, before: seq<Line>, line: Line)
    requires id in w.server.rooms && id in v.server.rooms && IsMember(w, id, client) && v.heard == Merge(w.heard, out)
    requires LinesTo(out, client) == before + [line] && forall l | l in before :: Neutral(l)
    requires client in v.sessions && v.sessions[client].current == w.sessions[client].current
    requires line.Peer?
    requires
      var was, next, family := w.server.rooms[id], v.server.rooms[id], line.endpoint.Family();
      && !was.failed && (was.selected.None? || (was.selected == Some(V6) && family == V4))
      && next.sessionNonce == was.sessionNonce && next.selected == Some(family) && !next.failed
    ensures OnlyIn(w, id, client) && PhaseOf(LinesTo(v.heard, client)).Some? && IsMember(v, id, client)
  {
    hide PhaseOf, NonceOf, Merge, LinesTo;
    var heard := LinesTo(w.heard, client);
    HeardAppends(w, out, client);
    assert heard + (before + [line]) == (heard + before) + [line];
    NeutralLines(heard, before);
    OneLine(heard + before, line);
    PhaseShape(heard);
  }

  /** Nobody hears anything of weight. */
  ghost predicate IsQuiet(out: Out) {
    forall client, line | line in LinesTo(out, client) :: Neutral(line)
  }

  /** Both members of the room are sent an exchange for the family it now has selected. */
  lemma PairingKeeps(w: World, v: World, out: Out, id: RoomId, notice: Out, family: Family)
    requires Sound(w) && id in w.server.rooms && id in v.server.rooms
    requires v.server.rooms == w.server.rooms[id := v.server.rooms[id]] && v.sessions == w.sessions
    requires v.heard == Merge(w.heard, out)
    requires
      var was, next := w.server.rooms[id], v.server.rooms[id];
      && WellFormed(next) && |next.peers| == 2 && next.peers.Keys == was.peers.Keys && AllHave(next.peers, family)
      && !was.failed && (was.selected.None? || (was.selected == Some(V6) && family == V4))
      && next.sessionNonce == was.sessionNonce && next.selected == Some(family) && !next.failed
      && out == Merge(notice, Exchange(next, family))
    requires IsQuiet(notice)
    ensures Sound(v)
  {
    hide PhaseOf, NonceOf, IsId, IsTitle, Sound, WellFormed, IsMember, LinesTo, Exchange;
    var next := v.server.rooms[id];
    AsRoom(w, id);
    forall member
      ensures LinesTo(out, member) == LinesTo(notice, member) + LinesTo(Exchange(next, family), member)
    {
      MergedLines(notice, Exchange(next, family), member);
    }
    hide Merge;
    forall member | member in next.peers
      ensures OnlyIn(w, id, member) && PhaseOf(LinesTo(v.heard, member)).Some? && IsMember(v, id, member)
    {
      assert member in w.server.rooms[id].peers.Keys;
      AsMember(w, id, member);
      MemberHasSession(w, id, member);
      ExchangeLines(next, family, member);
      var line := LinesTo(Exchange(next, family), member)[0];
      IsPaired(w, v, out, id, member, LinesTo(notice, member), line);
    }
    forall member | member !in next.peers ensures Undisturbed(w, v, out, member) {
      ExchangeLines(next, family, member);
    }
    Keeps(w, v, out, id, next.peers.Keys);
  }

  lemma MergedLines(a: Out, b: Out, client: ClientId)
    ensures LinesTo(Merge(a, b), client) == LinesTo(a, client) + LinesTo(b, client)
  {
  }

  lemma LocatedRoom(was: Room, client: ClientId, address: Address)
    requires WellFormed(was) && client in was.peers
    ensures WellFormed(Located(was, client, address))
    ensures Located(was, client, address).peers.Keys == was.peers.Keys
  {
    hide IsTitle;
    var next := Located(was, client, address);
    assert next.peers.Keys == was.peers.Keys;
  }

  lemma RegisterKeeps(w: World, v: World, client: ClientId, address: Address, order: seq<RoomId>)
    requires Sound(w) && v.sessions == w.sessions
    requires
      var change := Register(w.server, client, address, order);
      v.server.rooms == change.server.rooms && v.heard == Merge(w.heard, change.out)
    ensures Sound(v)
  {
    hide PhaseOf, NonceOf, IsId, IsTitle, Sound, WellFormed, IsMember, Merge, Exchange, CommonFamily;
    var notice: Out := if client in w.server.clients then map[client := [RegisteredText(address.Family())]] else map[];
    var out := Register(w.server, client, address, order).out;
    match RoomOf(w.server.rooms, client, order)
    case None =>
      QuietStep(w, v, out);
    case Some(id) =>
      var room := Located(w.server.rooms[id], client, address);
      AsRoom(w, id);
      LocatedRoom(w.server.rooms[id], client, address);
      if ReadyToPair(room) {
        var family := CommonFamily(room.peers).value;
        SelectedRoom(room, family);
        assert Exchange(room, family) == Exchange(room.(selected := Some(family)), family) by {
          ExchangeIgnoresSelection(room, family);
        }
        PairingKeeps(w, v, out, id, notice, family);
      } else {
        LocatedKeeps(w, v, out, id);
      }
  }

  lemma ExchangeIgnoresSelection(room: Room, family: Family)
    requires |room.peers| == 2 && AllHave(room.peers, family)
    ensures Exchange(room, family) == Exchange(room.(selected := Some(family)), family)
  {
  }

  lemma SelectedRoom(room: Room, family: Family)
    requires WellFormed(room) && |room.peers| == 2 && AllHave(room.peers, family)
    ensures WellFormed(room.(selected := Some(family)))
  {
    hide IsTitle;
  }

  /** Nothing a transcript shows has changed in the room. */
  lemma LocatedKeeps(w: World, v: World, out: Out, id: RoomId)
    requires Sound(w) && id in w.server.rooms && id in v.server.rooms
    requires v.server.rooms == w.server.rooms[id := v.server.rooms[id]] && v.sessions == w.sessions
    requires v.heard == Merge(w.heard, out) && IsQuiet(out)
    requires
      var was, next := w.server.rooms[id], v.server.rooms[id];
      && WellFormed(next) && next.peers.Keys == was.peers.Keys
      && next.sessionNonce == was.sessionNonce && next.selected == was.selected && next.failed == was.failed
    ensures Sound(v)
  {
    hide PhaseOf, NonceOf, IsId, IsTitle, Sound, WellFormed, IsMember, Merge;
    AsRoom(w, id);
    forall member | member in v.server.rooms[id].peers ensures IsMember(v, id, member) {
      assert member in w.server.rooms[id].peers.Keys;
      AsMember(w, id, member);
      MemberHasSession(w, id, member);
      ClientHears(w, out, member, LinesTo(out, member));
      StaysMember(w, v, id, member);
    }
    Keeps(w, v, out, id, {});
  }

  /** Nobody hears anything of weight and no room changes, though some may go. */
  lemma QuietStep(w: World, v: World, out: Out)
    requires Sound(w) && v.heard == Merge(w.heard, out) && IsQuiet(out)
    requires forall id | id in v.server.rooms :: id in w.server.rooms && v.server.rooms[id] == w.server.rooms[id]
    requires forall client | client in w.sessions ::
               client in v.sessions && v.sessions[client].current == w.sessions[client].current
    ensures Sound(v)
  {
    QuietKeeps(w, v, out);
  }

  lemma RetryFamilyKeeps(w: World, v: World, id: RoomId, client: ClientId)
    requires Sound(w) && v.sessions == w.sessions
    requires
      var change := RetryFamily(w.server, id, client, V4);
      v.server.rooms == change.server.rooms && v.heard == Merge(w.heard, change.out)
    ensures Sound(v)
  {
    hide PhaseOf, NonceOf, IsId, IsTitle, Sound, WellFormed, IsMember, Merge, Exchange, AllHave;
    var out := RetryFamily(w.server, id, client, V4).out;
    if id in w.server.rooms && CanRetry(w.server.rooms[id], client, V4) {
      var room := w.server.rooms[id];
      AsRoom(w, id);
      V6IsSelected(room);
      SelectedRoom(room, V4);
      ExchangeIgnoresSelection(room, V4);
      MergeWithNothing(out);
      PairingKeeps(w, v, out, id, map[], V4);
    } else {
      QuietStep(w, v, out);
    }
  }

  lemma V6IsSelected(room: Room)
    requires WellFormed(room) && room.selected != Some(V4)
    ensures room.selected.None? || room.selected == Some(V6)
  {
  }

  lemma MergeWithNothing(out: Out)
    ensures Merge(map[], out) == out
  {
    forall client | client in out ensures Merge(map[], out)[client] == out[client] {
      assert [] + out[client] == out[client];
    }
  }

  /** Both members are sent the same line, which the room now reflects. */
  lemma BroadcastKeeps(w: World, v: World, id: RoomId, line: Line)
    requires Sound(w) && id in w.server.rooms && id in v.server.rooms
    requires v.server.rooms == w.server.rooms[id := v.server.rooms[id]] && v.sessions == w.sessions
    requires v.heard == Merge(w.heard, Broadcast(w.server.rooms[id].peers.Keys, line))
    requires
      var was, next := w.server.rooms[id], v.server.rooms[id];
      && WellFormed(next) && next.peers.Keys == was.peers.Keys && next.sessionNonce == was.sessionNonce
      && if IsReset(line) then !IsAdmission(line) && next.selected.None? && !next.failed
         else IsDisconnect(line) && next.selected == was.selected && !was.failed && next.failed
    ensures Sound(v)
  {
    hide PhaseOf, NonceOf, IsId, IsTitle, Sound, WellFormed, IsMember, Merge;
    var members := w.server.rooms[id].peers.Keys;
    var out := Broadcast(members, line);
    AsRoom(w, id);
    forall member | member in members
      ensures OnlyIn(w, id, member) && PhaseOf(LinesTo(v.heard, member)).Some? && IsMember(v, id, member)
    {
      AsMember(w, id, member);
      MemberHasSession(w, id, member);
      if IsReset(line) {
        IsReadmitted(w, v, out, id, member, line);
      } else {
        IsCutOff(w, v, out, id, member, line);
      }
    }
    Keeps(w, v, out, id, members);
  }

  lemma IsCutOff(w: World, v: World, out: Out, id: RoomId, client: ClientId, line: Line)
    requires id in w.server.rooms && id in v.server.rooms && IsMember(w, id, client) && v.heard == Merge(w.heard, out)
    requires LinesTo(out, client) == [line] && IsDisconnect(line)
    requires client in v.sessions && v.sessions[client].current == w.sessions[client].current
    requires
      var was, next := w.server.rooms[id], v.server.rooms[id];
      && !was.failed && next.failed && next.selected == was.selected && next.sessionNonce == was.sessionNonce
    ensures OnlyIn(w, id, client) && PhaseOf(LinesTo(v.heard, client)).Some? && IsMember(v, id, client)
  {
    HearsOne(w, out, client, line);
    hide PhaseOf, NonceOf, Merge;
  }

  lemma RefreshedRoom(was: Room)
    requires WellFormed(was)
    ensures WellFormed(Refreshed(was)) && Refreshed(was).peers.Keys == was.peers.Keys
  {
    hide IsTitle;
    assert Refreshed(was).peers.Keys == was.peers.Keys;
  }

  lemma FailedRoom(was: Room)
    requires WellFormed(was) && |was.peers| == 2
    ensures WellFormed(was.(failed := true))
  {
    hide IsTitle;
  }

  lemma RetryConnectionKeeps(w: World, v: World, id: RoomId, client: ClientId, now: Instant)
    requires Sound(w) && v.sessions == w.sessions
    requires
      var change := RetryConnection(w.server, id, client, now);
      v.server.rooms == change.server.rooms && v.heard == Merge(w.heard, change.out)
    ensures Sound(v)
  {
    hide PhaseOf, NonceOf, IsId, IsTitle, Sound, WellFormed, IsMember, Merge, Refreshed;
    var change := RetryConnection(w.server, id, client, now);
    if id in w.server.rooms && client in w.server.rooms[id].peers && |w.server.rooms[id].peers| == 2 && w.server.rooms[id].failed {
      AsRoom(w, id);
      RefreshedRoom(w.server.rooms[id]);
      RefreshedShape(w.server.rooms[id]);
      BroadcastKeeps(w, v, id, Text("REFRESH_UDP"));
    } else {
      QuietStep(w, v, change.out);
    }
  }

  lemma RefreshedShape(was: Room)
    ensures Refreshed(was).selected.None? && !Refreshed(was).failed && Refreshed(was).sessionNonce == was.sessionNonce
  {
  }

  lemma NotifyKeeps(w: World, v: World, id: RoomId, client: ClientId)
    requires Sound(w) && v.sessions == w.sessions
    requires
      var change := NotifyDisconnected(w.server, id, client);
      v.server.rooms == change.server.rooms && v.heard == Merge(w.heard, change.out)
    ensures Sound(v)
  {
    hide PhaseOf, NonceOf, IsId, IsTitle, Sound, WellFormed, IsMember, Merge;
    var change := NotifyDisconnected(w.server, id, client);
    if id in w.server.rooms && |w.server.rooms[id].peers| == 2 && client in w.server.rooms[id].peers && !w.server.rooms[id].failed {
      AsRoom(w, id);
      FailedRoom(w.server.rooms[id]);
      BroadcastKeeps(w, v, id, Text("P2P_DISCONNECTED"));
    } else {
      QuietStep(w, v, change.out);
    }
  }
}
