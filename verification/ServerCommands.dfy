/** What each command achieves, said of the rooms and the lines in the open: with the words the
    client sends, the conditions it can check and the numbers of the protocol. */
module ServerCommands {
  import opened Prelude
  import opened Protocol
  import opened Rooms
  import opened ServerRuns
  import opened ServerInvariant
  import ServerSteps
  import ServerRanks
  import opened ServerTheorems

  // --- Entering ------------------------------------------------------------------------

  /** A new client is connected, in no room and without announced dual-stack support. */
  lemma ArrivalConnects(w: World, client: ClientId, now: Instant)
    requires Enabled(w, Step.Arrive(client, now))
    ensures
      var v := Apply(w, Step.Arrive(client, now));
      && v.server == w.server.(clients := w.server.clients[client := false])
      && v.sessions == w.sessions[client := Session(None, true)]
      && ChangeOf(w, Step.Arrive(client, now)).out == map[]
  {
  }

  /** CREATE makes a private room with the client alone in it, unless the id is taken. */
  lemma CreateMakesARoom(s: Server, client: ClientId, id: RoomId, env: Env)
    requires env.allowed && env.roomAllowed && IsId(id)
    ensures
      var h := HandleLine(s, client, None, ["CREATE", id], env);
      if id in s.rooms then
        h == Handled(Change(s, map[client := [Text("ROOM_EXISTS")]], {}), None)
      else
        var room := Room(client, Private, env.nonce, env.now, map[client := Endpoints(None, None)], None, false);
        h == Handled(Change(s.(rooms := s.rooms[id := room]), map[client := [Created(id, env.nonce)]], {}), Some(id))
  {
    hide IsId;
    assert ["CREATE", id][1..] == [id];
  }

  /** CREATE_PUBLIC does the same with a title and the next rank, for up to 100 rooms. */
  lemma CreatePublicMakesARoom(s: Server, client: ClientId, id: RoomId, token: string, title: string, env: Env)
    requires env.allowed && env.roomAllowed && IsId(id) && DecodeTitle(token) == Some(title)
    ensures
      var h := HandleLine(s, client, None, ["CREATE_PUBLIC", id, token], env);
      var rank := if s.nextRank == MAX_U64 then 1 else s.nextRank + 1;
      if id in s.rooms then
        h == Handled(Change(s, map[client := [Text("ROOM_EXISTS")]], {}), None)
      else if |set r | r in s.rooms && s.rooms[r].kind.Public?| >= 100 then
        h == Handled(Change(s, map[client := [Text("PUBLIC_ROOM_LIMIT")]], {}), None)
      else
        var room := Room(client, Public(title, rank), env.nonce, env.now, map[client := Endpoints(None, None)], None, false);
        h == Handled(
          Change(s.(rooms := s.rooms[id := room], nextRank := rank), map[client := [PublicCreated(id, env.nonce, token)]], {}),
          Some(id))
  {
    hide IsId, DecodeTitle, EncodeTitle;
    assert ["CREATE_PUBLIC", id, token][1..] == [id, token];
    TitleRoundTrip(token, title);
  }

  /** JOIN and JOIN_PUBLIC admit a second client to a room of their own kind, tell it the nonce
      of the room and arm a match time-out of ten seconds. */
  lemma JoinAdmits(s: Server, client: ClientId, id: RoomId, public: bool, env: Env)
    requires env.allowed && env.roomAllowed && IsId(id)
    requires id in s.rooms && s.rooms[id].kind.Public? ==> IsTitle(s.rooms[id].kind.title)
    ensures
      var h := HandleLine(s, client, None, [if public then "JOIN_PUBLIC" else "JOIN", id], env);
      if id !in s.rooms || s.rooms[id].kind.Public? != public then
        h == Handled(Change(s, map[client := [Text("ROOM_NOT_FOUND")]], {}), None)
      else if |s.rooms[id].peers| >= 2 then
        h == Handled(Change(s, map[client := [Text("ROOM_FULL")]], {}), None)
      else
        var was := s.rooms[id];
        && h.current == Some(id)
        && h.change.server == s.(rooms := s.rooms[id := was.(peers := was.peers[client := Endpoints(None, None)])])
        && h.change.timers == {Timer(id, was.sessionNonce, env.now + 10 * SECOND)}
        && h.change.out.Keys == {client} && |h.change.out[client]| == 1
        && var line := h.change.out[client][0];
           if public then line.PublicJoined? && line.room == id && line.nonce == was.sessionNonce
                          && DecodeTitle(line.title) == Some(was.kind.title)
           else line == Joined(id, was.sessionNonce)
  {
    hide IsId, DecodeTitle, EncodeTitle, IsTitle;
    var command := if public then "JOIN_PUBLIC" else "JOIN";
    assert [command, id][1..] == [id];
    if id in s.rooms && s.rooms[id].kind.Public? {
      TokenOfTitle(s.rooms[id].kind.title);
    }
  }

  lemma TokenOfTitle(title: string)
    requires IsTitle(title)
    ensures DecodeTitle(TitleToken(title)) == Some(title)
  {
    EncodedTitleIsReadable(title);
  }

  // --- Pairing -------------------------------------------------------------------------

  /** The address is kept as the client's endpoint of its family. */
  function Kept(endpoints: Endpoints, address: Address): Endpoints {
    match address
    case Ipv4(_) => Endpoints(Some(address), endpoints.ipv6)
    case Ipv6(_) => Endpoints(endpoints.ipv4, Some(address))
  }

  /** An exchange between the client and the other member of its room, for the family. */
  ghost predicate Exchanged(w: World, step: Step, id: RoomId, client: ClientId, family: Family)
    requires Enabled(w, step)
  {
    && id in Apply(w, step).server.rooms
    && Apply(w, step).server.rooms[id].selected == Some(family)
    && exists other :: Mutual(Apply(w, step), ChangeOf(w, step).out, id, client, other)
  }

  lemma MutualAfter(w: World, step: Step, id: RoomId, client: ClientId, family: Family, notice: Out)
    requires Reachable(w) && Enabled(w, step)
    requires
      var s, out := ChangeOf(w, step).server, ChangeOf(w, step).out;
      && id in s.rooms && |s.rooms[id].peers| == 2 && AllHave(s.rooms[id].peers, family) && client in s.rooms[id].peers
      && s.rooms[id].selected == Some(family)
      && NoExchange(notice) && out == Merge(notice, Exchange(s.rooms[id], family))
    ensures Exchanged(w, step, id, client, family)
  {
    hide Reachable, Enabled, ChangeOf, AllHave, Inv, Exchange, Merge, NoExchange, Exchanges, Mutual, SessionsAfter;
    var s, out := ChangeOf(w, step).server, ChangeOf(w, step).out;
    ServerRanks.ReachableInv(w);
    ServerRanks.StepKeepsInv(w, step);
    ExchangeExchanges(s, out, id, family, notice);
    OwnLine(s, out, id, family, client);
    var other := MutualLines(Apply(w, step), out, id, family, client);
  }

  lemma OwnLine(s: Server, out: Out, id: RoomId, family: Family, client: ClientId)
    requires Exchanges(s, out, id, family) && client in s.rooms[id].peers
    ensures PeerLines(LinesTo(out, client)) != []
  {
    hide PeerLines, LinesTo;
  }

  /** The fallback: `P2P_RETRY 4` in a full room that has not failed, is paired over IPv6 and
      whose members both have an IPv4 endpoint, pairs them over IPv4. */
  lemma FallbackHappens(w: World, client: ClientId, env: Env, id: RoomId)
    requires Reachable(w) && Enabled(w, Say(client, ["P2P_RETRY", "4"], env)) && env.allowed
    requires w.sessions[client].current == Some(id) && id in w.server.rooms
    requires
      var room := w.server.rooms[id];
      && client in room.peers && |room.peers| == 2 && !room.failed && room.selected == Some(V6)
      && forall c | c in room.peers :: room.peers[c].ipv4.Some?
    ensures Exchanged(w, Say(client, ["P2P_RETRY", "4"], env), id, client, V4)
    ensures Apply(w, Say(client, ["P2P_RETRY", "4"], env)).server ==
            w.server.(rooms := w.server.rooms[id := w.server.rooms[id].(selected := Some(V4))])
  {
    hide Reachable, Plausible, Exchange, Exchanged, Merge;
    var room := w.server.rooms[id];
    assert ["P2P_RETRY", "4"][1..] == ["4"];
    assert AllHave(room.peers, V4);
    ServerSteps.ExchangeIgnoresSelection(room, V4);
    ServerSteps.MergeWithNothing(Exchange(room, V4));
    MutualAfter(w, Say(client, ["P2P_RETRY", "4"], env), id, client, V4, map[]);
  }

  /** In every other case the command does nothing. */
  lemma FallbackElseNothing(s: Server, client: ClientId, current: Option<RoomId>, env: Env)
    requires env.allowed
    requires current.Some? && current.value in s.rooms ==>
               var room := s.rooms[current.value];
               || client !in room.peers || |room.peers| != 2 || room.failed || room.selected == Some(V4)
               || exists c :: c in room.peers && room.peers[c].ipv4.None?
    ensures HandleLine(s, client, current, ["P2P_RETRY", "4"], env) == Handled(Change(s, map[], {}), current)
  {
    hide Exchange;
    assert ["P2P_RETRY", "4"][1..] == ["4"];
  }

  lemma RoomIsFound(w: World, id: RoomId, client: ClientId, order: seq<RoomId>)
    requires Reachable(w) && Enumerates(order, w.server.rooms.Keys)
    requires id in w.server.rooms && client in w.server.rooms[id].peers
    ensures RoomOf(w.server.rooms, client, order) == Some(id)
  {
    assert id in order;
    hide Reachable, Enumerates;
    var found := RoomOf(w.server.rooms, client, order);
    if found.Some? {
      OneRoomPerClient(w, id, found.value, client);
    }
  }

  /** The room after the registration, before a family is selected. */
  function Registered(room: Room, client: ClientId, address: Address): Room
    requires client in room.peers
  {
    room.(peers := room.peers[client := Kept(room.peers[client], address)])
  }

  function Notice(s: Server, client: ClientId, address: Address): Out {
    if client !in s.clients then map[]
    else map[client := [Text(if address.Ipv4? then "REGISTERED 4" else "REGISTERED 6")]]
  }

  /** The family the room is paired over, if it is to be paired now: IPv6 if both members have
      it, failing that IPv4 if both have that. */
  function Agreed(room: Room): Option<Family> {
    if |room.peers| != 2 || room.failed || room.selected.Some? then None
    else if forall c | c in room.peers :: room.peers[c].ipv6.Some? then Some(V6)
    else if forall c | c in room.peers :: room.peers[c].ipv4.Some? then Some(V4)
    else None
  }

  lemma AgreedMeansReady(room: Room)
    ensures Agreed(room).Some? <==> ReadyToPair(room)
    ensures Agreed(room).Some? ==> AllHave(room.peers, Agreed(room).value) && CommonFamily(room.peers) == Agreed(room)
  {
    assert AllHave(room.peers, V6) <==> forall c | c in room.peers :: room.peers[c].ipv6.Some?;
    assert AllHave(room.peers, V4) <==> forall c | c in room.peers :: room.peers[c].ipv4.Some?;
  }

  lemma RegisterDoes(s: Server, client: ClientId, address: Address, order: seq<RoomId>, id: RoomId)
    requires RoomOf(s.rooms, client, order) == Some(id)
    ensures
      var room, change := Registered(s.rooms[id], client, address), Register(s, client, address, order);
      var family := Agreed(room);
      && change.server == s.(rooms := s.rooms[id := if family.Some? then room.(selected := family) else room])
      && change.timers == {}
      && (family.None? ==> change.out == Notice(s, client, address))
      && (family.Some? ==> |room.peers| == 2 && AllHave(room.peers, family.value)
                           && change.out == Merge(Notice(s, client, address), Exchange(room, family.value)))
  {
    hide Exchange, Merge, CommonFamily, AllHave, ReadyToPair, Agreed;
    var room := Registered(s.rooms[id], client, address);
    assert room == Located(s.rooms[id], client, address);
    AgreedMeansReady(room);
    AgreedMeansFull(room);
  }

  lemma AgreedMeansFull(room: Room)
    ensures Agreed(room).Some? ==> |room.peers| == 2
  {
  }

  /** A registration is confirmed with its family and kept in the client's room. If the room is
      full, has not failed and has no family selected, and both members now have IPv6, they
      are paired over IPv6; failing that, if both have IPv4, over IPv4. */
  lemma RegistrationPairs(w: World, client: ClientId, address: Address, order: seq<RoomId>, now: Instant, id: RoomId)
    requires Reachable(w) && Enabled(w, Locate(client, address, order, now))
    requires id in w.server.rooms && client in w.server.rooms[id].peers
    ensures
      var step, room := Locate(client, address, order, now), Registered(w.server.rooms[id], client, address);
      var family := Agreed(room);
      && Apply(w, step).server == w.server.(rooms := w.server.rooms[id := if family.Some? then room.(selected := family) else room])
      && LinesTo(Notice(w.server, client, address), client) <= LinesTo(ChangeOf(w, step).out, client)
      && (family.Some? ==> Exchanged(w, step, id, client, family.value))
      && (family.None? ==> ChangeOf(w, step).out == Notice(w.server, client, address))
  {
    hide Reachable, Enumerates, Exchange, Exchanged, Merge, Register, Agreed, Notice, AllHave, RoomOf;
    var step, room := Locate(client, address, order, now), Registered(w.server.rooms[id], client, address);
    RoomIsFound(w, id, client, order);
    RegisterDoes(w.server, client, address, order, id);
    NoticeIsNoExchange(w.server, client, address);
    if Agreed(room).Some? {
      var family := Agreed(room).value;
      ServerSteps.ExchangeIgnoresSelection(room, family);
      MutualAfter(w, step, id, client, family, Notice(w.server, client, address));
      ServerSteps.MergedLines(Notice(w.server, client, address), Exchange(room, family), client);
    }
  }

  lemma NoticeIsNoExchange(s: Server, client: ClientId, address: Address)
    ensures NoExchange(Notice(s, client, address))
  {
  }

  /** RETRY_P2P in a full room that failed forgets the failure, the selection and all endpoints,
      asks both members to register again and arms a new time-out; alone, the client is told
      so; otherwise nothing happens. */
  lemma RetryStartsOver(s: Server, client: ClientId, id: RoomId, env: Env)
    requires env.allowed && id in s.rooms && client in s.rooms[id].peers
    ensures
      var h, room := HandleLine(s, client, Some(id), ["RETRY_P2P"], env), s.rooms[id];
      && h.current == Some(id)
      && if |room.peers| != 2 then
           h.change == Change(s, map[client := [Text("PEER_NOT_AVAILABLE")]], {})
         else if !room.failed then
           h.change == Change(s, map[], {})
         else
           var next := Room(room.creator, room.kind, room.sessionNonce, room.createdAt,
                            map c | c in room.peers :: Endpoints(None, None), None, false);
           h.change == Change(s.(rooms := s.rooms[id := next]), map c | c in room.peers :: [Text("REFRESH_UDP")],
                              {Timer(id, room.sessionNonce, env.now + 10 * SECOND)})
  {
    assert ["RETRY_P2P"][1..] == [];
  }

  /** P2P_FAILED in a full room that has not failed marks it and tells both; otherwise nothing
      happens. */
  lemma FailureIsTold(s: Server, client: ClientId, id: RoomId, env: Env)
    requires env.allowed && id in s.rooms && client in s.rooms[id].peers
    ensures
      var h, room := HandleLine(s, client, Some(id), ["P2P_FAILED"], env), s.rooms[id];
      && h.current == Some(id)
      && if |room.peers| == 2 && !room.failed then
           h.change == Change(s.(rooms := s.rooms[id := room.(failed := true)]),
                              map c | c in room.peers :: [Text("P2P_DISCONNECTED")], {})
         else
           h.change == Change(s, map[], {})
  {
    assert ["P2P_FAILED"][1..] == [];
  }

  // --- Leaving and expiring ------------------------------------------------------------

  /** A member that leaves a full room leaves the other one behind as its creator, with nothing
      selected and not failed, ten minutes of its own and, in a public room, the next rank;
      the other one is told. */
  lemma LeaveHandsOver(w: World, client: ClientId, env: Env, id: RoomId, other: ClientId)
    requires Reachable(w) && Enabled(w, Say(client, ["LEAVE"], env)) && env.allowed
    requires w.sessions[client].current == Some(id) && id in w.server.rooms
    requires w.server.rooms[id].peers.Keys == {client, other} && client != other
    ensures
      var step, was := Say(client, ["LEAVE"], env), w.server.rooms[id];
      var v := Apply(w, step);
      var rank := if was.kind.Private? then w.server.nextRank else if w.server.nextRank == MAX_U64 then 1 else w.server.nextRank + 1;
      && v.server.rooms == w.server.rooms[id := Room(
           other, if was.kind.Public? then Public(was.kind.title, rank) else Private, was.sessionNonce, env.now,
           map[other := was.peers[other]], None, false)]
      && v.server.nextRank == rank
      && v.sessions[client] == Session(None, true)
      && ChangeOf(w, step).out == map[client := [Text("LEFT")], other := [Text("PEER_LEFT")]]
  {
    hide Reachable, LeaveRoom, Merge, Enumerates;
    var s, was := w.server, w.server.rooms[id];
    EveryRoomIsWellFormed(w, id);
    assert ["LEAVE"][1..] == [];
    assert was.peers.Keys - {client} == {other};
    OneHeir(env.heirs, other);
    LeaveOfTwo(s, id, client, other, env.heirs, env.now);
    BothHear(client, other);
  }

  lemma BothHear(client: ClientId, other: ClientId)
    requires client != other
    ensures
      Merge(map[other := [Text("PEER_LEFT")]], map[client := [Text("LEFT")]]) ==
      map[client := [Text("LEFT")], other := [Text("PEER_LEFT")]]
  {
    var merged := Merge(map[other := [Text("PEER_LEFT")]], map[client := [Text("LEFT")]]);
    var expected: Out := map[client := [Text("LEFT")], other := [Text("PEER_LEFT")]];
    assert merged.Keys == expected.Keys;
    assert [] + [Text("LEFT")] == [Text("LEFT")] && [Text("PEER_LEFT")] + [] == [Text("PEER_LEFT")];
    assert merged[client] == expected[client] && merged[other] == expected[other];
  }

  lemma LeaveOfTwo(s: Server, id: RoomId, client: ClientId, other: ClientId, heirs: seq<ClientId>, now: Instant)
    requires heirs != [] && heirs[0] == other
    requires id in s.rooms && s.rooms[id].peers.Keys == {client, other} && client != other
    requires s.rooms[id].creator in s.rooms[id].peers
    ensures
      var was, left := s.rooms[id], LeaveRoom(s, id, client, heirs, now);
      var rank := if was.kind.Private? then s.nextRank else if s.nextRank == MAX_U64 then 1 else s.nextRank + 1;
      && left.server == s.(rooms := s.rooms[id := Room(
           other, if was.kind.Public? then Public(was.kind.title, rank) else Private, was.sessionNonce, now,
           map[other := was.peers[other]], None, false)], nextRank := rank)
      && left.out == map[other := [Text("PEER_LEFT")]] && left.timers == {}
  {
    var was := s.rooms[id];
    assert |was.peers.Keys| == 2 && was.creator in was.peers.Keys;
    assert was.peers - {client} == map[other := was.peers[other]];
    assert other in was.peers - {client};
    var left := LeaveRoom(s, id, client, heirs, now);
    assert left.server.rooms[id].kind == if was.kind.Public? then Public(was.kind.title, left.server.nextRank) else Private;
    assert left.out == map[other := [Text("PEER_LEFT")]];
  }

  lemma OneHeir(heirs: seq<ClientId>, other: ClientId)
    requires Enumerates(heirs, {other})
    ensures heirs != [] && heirs[0] == other
  {
    assert other in heirs;
    assert heirs[0] in heirs;
  }

  /** The last one to leave takes the room along. */
  lemma LastLeaveRemoves(s: Server, client: ClientId, id: RoomId, env: Env)
    requires env.allowed && id in s.rooms && s.rooms[id].peers.Keys == {client}
    ensures HandleLine(s, client, Some(id), ["LEAVE"], env) ==
            Handled(Change(s.(rooms := s.rooms - {id}), map[client := [Text("LEFT")]], {}), None)
  {
    assert ["LEAVE"][1..] == [];
    assert |s.rooms[id].peers.Keys| == 1;
    assert s.rooms[id].peers - {client} == map[];
    assert Merge(map[], map[client := [Text("LEFT")]]) == map[client := [Text("LEFT")]] by {
      ServerSteps.MergeWithNothing(map[client := [Text("LEFT")]]);
    }
  }

  /** A room id is 32 hexadecimal digits of either case. */
  lemma IdsAre32Digits(token: string)
    ensures IsId(token) <==> |token| == 32 && forall i | 0 <= i < 32 :: token[i] in "0123456789abcdefABCDEF"
  {
    HexReads(token, 16);
    forall i | 0 <= i < |token| ensures HexNibble(token[i]).Some? <==> token[i] in "0123456789abcdefABCDEF" {
      NibblesAreDigits(token[i]);
    }
    hide DecodedHex, HexNibble;
  }

  lemma NibblesAreDigits(c: char)
    ensures HexNibble(c).Some? <==> c in "0123456789abcdefABCDEF"
  {
    if HexNibble(c).Some? {
      assert c == "0123456789abcdef"[HexNibble(c).value] || c == "0123456789ABCDEF"[HexNibble(c).value];
    }
  }

  lemma GoodbyeOfTwo(s: Server, id: RoomId, client: ClientId, other: ClientId, env: Env)
    requires id in s.rooms && s.rooms[id].peers.Keys == {client, other} && client != other
    requires s.rooms[id].creator in s.rooms[id].peers && Enumerates(env.heirs, {other})
    ensures
      var was, left := s.rooms[id], Goodbye(s, client, Some(id), env);
      && left.server.rooms.Keys == s.rooms.Keys
      && (forall r | r in s.rooms && r != id :: left.server.rooms[r] == s.rooms[r])
      && left.server.rooms[id].peers == map[other := was.peers[other]]
      && left.server.rooms[id].creator == other
      && left.out == map[other := [Text("PEER_LEFT")]]
  {
    OneHeir(env.heirs, other);
    LeaveOfTwo(s, id, client, other, env.heirs, env.now);
    hide LeaveRoom;
  }

  lemma GoodbyeOfOne(s: Server, id: RoomId, client: ClientId, env: Env)
    requires id in s.rooms && s.rooms[id].peers.Keys == {client}
    ensures
      var left := Goodbye(s, client, Some(id), env);
      left.server.rooms == s.rooms - {id} && left.out == map[]
  {
    assert |s.rooms[id].peers.Keys| == 1;
    assert s.rooms[id].peers - {client} == map[];
  }

  lemma GoodbyeElsewhere(s: Server, id: RoomId, client: ClientId, current: Option<RoomId>, env: Env)
    requires id in s.rooms && current != Some(id)
    ensures
      var left := Goodbye(s, client, current, env);
      id in left.server.rooms && left.server.rooms[id] == s.rooms[id]
  {
  }

  lemma GoodbyeForgets(s: Server, client: ClientId, current: Option<RoomId>, env: Env)
    ensures
      var left := Goodbye(s, client, current, env);
      left.server.clients == s.clients - {client} && left.server.rooms.Keys <= s.rooms.Keys
  {
  }

  /** A client that hangs up is forgotten: it is no longer connected and in no room, its room
      goes with it or passes to the other member, who is told, and no other room changes. */
  lemma HangupForgets(w: World, client: ClientId, env: Env, id: RoomId)
    requires Reachable(w) && Enabled(w, Hangup(client, env)) && id in w.server.rooms
    ensures
      var v, out := Apply(w, Hangup(client, env)), ChangeOf(w, Hangup(client, env)).out;
      var was := w.server.rooms[id];
      && v.server.clients == w.server.clients - {client} && !Live(v, client)
      && v.server.rooms.Keys <= w.server.rooms.Keys
      && (id in v.server.rooms ==> client !in v.server.rooms[id].peers)
      && (w.sessions[client].current != Some(id) ==> id in v.server.rooms && v.server.rooms[id] == was)
      && (was.peers.Keys == {client} ==> id !in v.server.rooms && out == map[])
      && (forall other | was.peers.Keys == {client, other} && client != other ::
            && id in v.server.rooms && v.server.rooms[id].peers == map[other := was.peers[other]]
            && v.server.rooms[id].creator == other
            && out == map[other := [Text("PEER_LEFT")]])
  {
    hide Reachable, LeaveRoom, Enumerates, Goodbye;
    var was := w.server.rooms[id];
    EveryRoomIsWellFormed(w, id);
    GoodbyeForgets(w.server, client, w.sessions[client].current, env);
    if w.sessions[client].current != Some(id) {
      GoodbyeElsewhere(w.server, id, client, w.sessions[client].current, env);
    }
    if client in was.peers {
      OneRoomPerClient(w, id, id, client);
      if was.peers.Keys == {client} {
        GoodbyeOfOne(w.server, id, client, env);
      }
      forall other | was.peers.Keys == {client, other} && client != other
        ensures
          var left := Goodbye(w.server, client, Some(id), env);
          && id in left.server.rooms && left.server.rooms[id].peers == map[other := was.peers[other]]
          && left.server.rooms[id].creator == other
          && left.out == map[other := [Text("PEER_LEFT")]]
      {
        assert was.peers.Keys - {client} == {other};
        GoodbyeOfTwo(w.server, id, client, other, env);
      }
      OneOrTwo(was.peers, client);
    } else {
      StaysOut(w.server, id, client, w.sessions[client].current, env);
    }
  }

  lemma StaysOut(s: Server, id: RoomId, client: ClientId, current: Option<RoomId>, env: Env)
    requires id in s.rooms && client !in s.rooms[id].peers
    ensures
      var left := Goodbye(s, client, current, env);
      id in left.server.rooms ==> client !in left.server.rooms[id].peers
  {
  }

  lemma OneOrTwo(peers: map<ClientId, Endpoints>, client: ClientId)
    requires client in peers && 1 <= |peers| <= 2
    ensures peers.Keys == {client} || exists other :: peers.Keys == {client, other} && client != other
  {
    if |peers| == 2 {
      var other := Other(peers, client);
      assert peers.Keys == {client, other};
    } else {
      assert |peers.Keys - {client}| == 0;
    }
  }

  /** A sweep removes exactly the rooms of one client that have been so for ten minutes. */
  lemma SweepRemovesTheOld(w: World, ids: seq<RoomId>, now: Instant, id: RoomId)
    requires Reachable(w) && Enabled(w, Step.Sweep(ids, now)) && id in w.server.rooms
    ensures
      var room, v := w.server.rooms[id], Apply(w, Step.Sweep(ids, now)).server;
      && (id !in v.rooms <==> |room.peers| == 1 && now - room.createdAt >= 600 * SECOND)
      && (id in v.rooms ==> v.rooms[id] == room)
      && v.clients == w.server.clients && v.nextRank == w.server.nextRank
  {
    hide Reachable, ExpiryNotices, Merge;
    EveryRoomIsWellFormed(w, id);
  }

  /** And the client of a removed room is told. */
  lemma {:induction false} ExpiryIsTold(rooms: map<RoomId, Room>, ids: seq<RoomId>, id: RoomId, client: ClientId)
    requires id in ids && id in rooms && client in rooms[id].peers
    ensures Text("ROOM_EXPIRED") in LinesTo(ExpiryNotices(rooms, ids), client)
  {
    var front, last := ids[..|ids| - 1], ids[|ids| - 1];
    var before := ExpiryNotices(rooms, front);
    if last in rooms {
      ServerSteps.MergedLines(before, Broadcast(rooms[last].peers.Keys, Text("ROOM_EXPIRED")), client);
    }
    if id != last {
      assert id in front;
      ExpiryIsTold(rooms, front, id, client);
    }
  }

  lemma SweepTells(w: World, ids: seq<RoomId>, now: Instant, id: RoomId, client: ClientId)
    requires Reachable(w) && Enabled(w, Step.Sweep(ids, now)) && id in w.server.rooms && client in w.server.rooms[id].peers
    requires id !in Apply(w, Step.Sweep(ids, now)).server.rooms
    ensures Text("ROOM_EXPIRED") in LinesTo(ChangeOf(w, Step.Sweep(ids, now)).out, client)
  {
    hide Reachable, ExpiryNotices, Merge;
    assert id in ids;
    ExpiryIsTold(w.server.rooms, ids, id, client);
  }

  // --- Time-outs, announcements and refusals -------------------------------------------

  /** A match time-out tells those members that announced dual-stack support, and nobody else,
      and only while the room is the one it was armed for, is full and has no family selected,
      and both have registered something. */
  lemma TimeoutTells(s: Server, timer: Timer, client: ClientId)
    ensures
      LinesTo(MatchTimeout(s, timer), client) ==
      if && timer.room in s.rooms
         && var room := s.rooms[timer.room];
            && room.sessionNonce == timer.nonce && |room.peers| == 2 && room.selected.None?
            && (forall c | c in room.peers :: room.peers[c].ipv4.Some? || room.peers[c].ipv6.Some?)
            && client in room.peers && client in s.clients && s.clients[client]
      then [Text("P2P_UNAVAILABLE ADDRESS_FAMILY")] else []
  {
  }

  /** Support once announced is remembered as long as the client is connected. */
  lemma AnnouncementLasts(s: Server, client: ClientId, dualStack: bool, other: ClientId)
    ensures
      var t := Probe(s, client, dualStack);
      && t.rooms == s.rooms && t.nextRank == s.nextRank && t.clients.Keys == s.clients.Keys
      && (other in s.clients ==> (t.clients[other] <==> s.clients[other] || (other == client && dualStack)))
  {
  }

  /** The refusals: what a client is told, and that nothing changes. */
  lemma Refusals(s: Server, client: ClientId, current: Option<RoomId>, parts: seq<string>, env: Env)
    ensures
      var h, entering := HandleLine(s, client, current, parts, env),
                         parts != [] && parts[0] in {"CREATE", "CREATE_PUBLIC", "JOIN", "JOIN_PUBLIC"};
      && (!env.allowed ==> Says(h, s, client, current, "RATE_LIMITED"))
      && (env.allowed && entering && current.Some? ==> Says(h, s, client, current, "ALREADY_IN_ROOM"))
      && (env.allowed && entering && current.None? && !env.roomAllowed ==> Says(h, s, client, current, "RATE_LIMITED"))
      && (env.allowed && (parts == [] || parts[0] !in COMMANDS) ==> Says(h, s, client, current, "ERROR UNKNOWN_COMMAND"))
      && (env.allowed && parts != [] && parts[0] == "PONG" ==> h == Handled(Change(s, map[], {}), current))
  {
    hide HandleEntrance, HandleMember;
  }

  const COMMANDS: set<string> := {
    "PONG", "CREATE", "CREATE_PUBLIC", "JOIN", "JOIN_PUBLIC", "LIST_PUBLIC", "P2P_RETRY", "RETRY_P2P", "P2P_FAILED", "LEAVE"}

  predicate Says(h: Handled, s: Server, client: ClientId, current: Option<RoomId>, text: string) {
    h == Handled(Change(s, map[client := [Text(text)]], {}), current)
  }

  /** Malformed entrances: what is wrong decides what the client is told. */
  lemma MalformedEntrances(s: Server, client: ClientId, args: seq<string>, env: Env)
    requires env.allowed && env.roomAllowed
    ensures
      var create := HandleLine(s, client, None, ["CREATE"] + args, env);
      && (args == [] || !IsId(args[0]) ==> Says(create, s, client, None, "ERROR INVALID_ROOM_ID"))
      && (|args| > 1 && IsId(args[0]) ==> Says(create, s, client, None, "ERROR INVALID_COMMAND"))
    ensures
      var create := HandleLine(s, client, None, ["CREATE_PUBLIC"] + args, env);
      && (|args| < 2 ==> Says(create, s, client, None, "ERROR INVALID_COMMAND"))
      && (|args| >= 2 && (DecodeTitle(args[1]).None? || !IsId(args[0]) || |args| > 2) ==>
            Says(create, s, client, None, "ERROR INVALID_PUBLIC_ROOM"))
    ensures
      (args == [] || !IsId(args[0])) ==>
        Says(HandleLine(s, client, None, ["JOIN"] + args, env), s, client, None, "ERROR INVALID_ROOM_ID")
    ensures
      (args == [] || !IsId(args[0]) || |args| > 1) ==>
        Says(HandleLine(s, client, None, ["JOIN_PUBLIC"] + args, env), s, client, None, "ERROR INVALID_ROOM_ID")
  {
    hide IsId, DecodeTitle, CreateRoom, CreatePublicRoom, JoinRoom;
    assert (["CREATE"] + args)[1..] == args && (["CREATE_PUBLIC"] + args)[1..] == args;
    assert (["JOIN"] + args)[1..] == args && (["JOIN_PUBLIC"] + args)[1..] == args;
  }

  /** Further words after a command that takes none, or anything but `4` after P2P_RETRY. */
  lemma MalformedCommands(s: Server, client: ClientId, current: Option<RoomId>, command: string, args: seq<string>, env: Env)
    requires env.allowed
    requires (command == "P2P_RETRY" && args != ["4"])
             || (command in {"LIST_PUBLIC", "RETRY_P2P", "P2P_FAILED", "LEAVE"} && args != [])
    ensures Says(HandleLine(s, client, current, [command] + args, env), s, client, current, "ERROR INVALID_COMMAND")
  {
    hide RoomCommand, HandleLeave, PublicList;
    assert ([command] + args)[1..] == args;
  }

  /** Outside a room the commands about the room do nothing, and LEAVE is only confirmed. */
  lemma OutsideARoom(s: Server, client: ClientId, command: string, env: Env)
    requires env.allowed && command in {"RETRY_P2P", "P2P_FAILED"}
    ensures HandleLine(s, client, None, [command], env) == Handled(Change(s, map[], {}), None)
    ensures HandleLine(s, client, None, ["LEAVE"], env) == Handled(Change(s, map[client := [Text("LEFT")]], {}), None)
  {
    hide RoomCommand;
    assert [command][1..] == [] && ["LEAVE"][1..] == [];
    ServerSteps.MergeWithNothing(map[client := [Text("LEFT")]]);
  }
}
