/** Pairing completeness: with room ids that are never used again, no two peers that could
    be paired are left unpaired. */
module ServerPairing {
  import opened Prelude
  import opened Protocol
  import opened Rooms
  import opened ServerRuns
  import opened ServerInvariant
  import ServerRanks

  // --- Completeness of one room --------------------------------------------------------

  /** Two peers that have not failed and are not paired have no family in common. */
  predicate Complete(room: Room) {
    |room.peers| == 2 && !room.failed && room.selected.None? ==> CommonFamily(room.peers).None?
  }

  ghost predicate AllComplete(s: Server) {
    forall id | id in s.rooms :: Complete(s.rooms[id])
  }

  lemma NobodyHasNothing(peers: map<ClientId, Endpoints>, client: ClientId)
    requires client in peers && peers[client] == NO_ENDPOINTS
    ensures CommonFamily(peers).None?
  {
  }

  lemma CreateCompletes(s: Server, id: RoomId, client: ClientId, kind: Kind, nonce: Nonce, now: Instant)
    requires AllComplete(s)
    ensures AllComplete(s.(rooms := s.rooms[id := NewRoom(client, kind, nonce, now)]))
  {
    hide CommonFamily;
  }

  lemma JoinCompletes(s: Server, id: RoomId, client: ClientId, public: bool, now: Instant)
    requires AllComplete(s) && JoinRoom(s, id, client, public, now).Done?
    ensures AllComplete(JoinRoom(s, id, client, public, now).change.server)
  {
    NobodyHasNothing(s.rooms[id].peers[client := NO_ENDPOINTS], client);
    hide CommonFamily;
  }

  lemma RegisterCompletes(s: Server, client: ClientId, address: Address, order: seq<RoomId>)
    requires AllComplete(s)
    ensures AllComplete(Register(s, client, address, order).server)
  {
    hide Exchange, Merge;
  }

  lemma RoomCommandCompletes(s: Server, client: ClientId, room: RoomId, command: string, now: Instant)
    requires AllComplete(s)
    ensures AllComplete(RoomCommand(s, client, room, command, now).server)
  {
    hide Exchange;
    if room in s.rooms && client in s.rooms[room].peers {
      NobodyHasNothing(Refreshed(s.rooms[room]).peers, client);
    }
    hide CommonFamily;
  }

  /** Leaving keeps a room complete exactly when the client was in it, or when there was
      nothing to forget. */
  lemma LeaveCompletes(s: Server, id: RoomId, client: ClientId, heirs: seq<ClientId>, now: Instant)
    requires AllComplete(s) && RoomsAreWellFormed(s)
    ensures
      AllComplete(LeaveRoom(s, id, client, heirs, now).server) <==>
      (id !in s.rooms || client in s.rooms[id].peers || |s.rooms[id].peers| < 2 || CommonFamily(s.rooms[id].peers).None?)
  {
    if id in s.rooms {
      var was := s.rooms[id];
      var t := LeaveRoom(s, id, client, heirs, now).server;
      assert WellFormed(was);
      hide CommonFamily;
      assert (was.peers - {client}).Keys == was.peers.Keys - {client};
      if client in was.peers {
        assert |was.peers.Keys - {client}| < 2;
      } else {
        assert was.peers - {client} == was.peers;
        assert was.peers != map[];
        assert t.rooms[id].peers == was.peers;
      }
    }
  }

  // --- Fresh ids -----------------------------------------------------------------------

  /** A handler's room, if it still exists, has the handler's client. */
  ghost predicate Attached(w: World) {
    && w.server.rooms.Keys <= w.used
    && (forall client | client in w.sessions && w.sessions[client].current.Some? :: w.sessions[client].current.value in w.used)
    && (forall client | client in w.sessions && w.sessions[client].current.Some? && w.sessions[client].current.value in w.server.rooms ::
          client in w.server.rooms[w.sessions[client].current.value].peers)
  }

  /** Of the rooms that were there, no one but `client` is gone from one that still is. */
  ghost predicate KeepsPeers(s: Server, t: Server, client: ClientId) {
    forall id, other | id in s.rooms && id in t.rooms && other in s.rooms[id].peers && other != client :: other in t.rooms[id].peers
  }

  /** A handler that ends up in a room that exists has its client in it. */
  ghost predicate Settles(s: Server, t: Server, client: ClientId, was: Option<RoomId>, now: Option<RoomId>) {
    && KeepsPeers(s, t, client)
    && (now.Some? ==> now == was || now.value in t.rooms)
    && (now.Some? && now.value in t.rooms ==>
          client in t.rooms[now.value].peers || (now == was && now.value !in s.rooms)
          || (now == was && now.value in s.rooms && client !in s.rooms[now.value].peers))
  }

  lemma LeavePeers(s: Server, id: RoomId, client: ClientId, heirs: seq<ClientId>, now: Instant)
    ensures KeepsPeers(s, LeaveRoom(s, id, client, heirs, now).server, client)
  {
  }

  lemma EntranceSettles(s: Server, client: ClientId, command: string, args: seq<string>, env: Env)
    requires IsEntrance(command)
    ensures
      var h := HandleEntrance(s, client, command, args, env);
      Settles(s, h.change.server, client, None, h.current)
  {
    hide IsId, DecodeTitle, PublicIds, TitleToken;
  }

  lemma RoomCommandPeers(s: Server, client: ClientId, room: RoomId, command: string, now: Instant)
    ensures
      var t := RoomCommand(s, client, room, command, now).server;
      t.rooms.Keys == s.rooms.Keys && forall id | id in s.rooms :: t.rooms[id].peers.Keys == s.rooms[id].peers.Keys
  {
    hide Exchange, AllHave;
    var t := RoomCommand(s, client, room, command, now).server;
    if room in s.rooms {
      assert Refreshed(s.rooms[room]).peers.Keys == s.rooms[room].peers.Keys;
    }
  }

  lemma LineSettles(s: Server, client: ClientId, current: Option<RoomId>, parts: seq<string>, env: Env)
    ensures
      var h := HandleLine(s, client, current, parts, env);
      Settles(s, h.change.server, client, current, h.current)
  {
    hide HandleEntrance, RoomCommand, LeaveRoom, PublicList, Merge;
    if current.Some? {
      LeavePeers(s, current.value, client, env.heirs, env.now);
      if parts != [] {
        RoomCommandPeers(s, client, current.value, parts[0], env.now);
        assert forall id, other | id in s.rooms && other in s.rooms[id].peers ::
            other in RoomCommand(s, client, current.value, parts[0], env.now).server.rooms[id].peers.Keys;
      }
    }
    if parts != [] && IsEntrance(parts[0]) {
      EntranceSettles(s, client, parts[0], parts[1..], env);
    }
  }

  lemma RegisterPeers(s: Server, client: ClientId, address: Address, order: seq<RoomId>)
    ensures
      var t := Register(s, client, address, order).server;
      t.rooms.Keys == s.rooms.Keys && forall id | id in s.rooms :: t.rooms[id].peers.Keys == s.rooms[id].peers.Keys
  {
    hide Exchange, Merge, CommonFamily;
  }

  /** With a fresh id, only the client that made a room can be attached to it. */
  lemma SettlesKeepsAttached(w: World, v: World, client: ClientId)
    requires Attached(w) && client in w.sessions && v.sessions.Keys == w.sessions.Keys
    requires Settles(w.server, v.server, client, w.sessions[client].current, v.sessions[client].current)
    requires forall other | other in w.sessions && other != client :: v.sessions[other] == w.sessions[other]
    requires v.used == w.used + v.server.rooms.Keys
    requires forall id | id in v.server.rooms && id !in w.server.rooms :: id !in w.used
    ensures Attached(v)
  {
  }

  lemma StepKeepsAttached(w: World, step: Step)
    requires Attached(w) && Enabled(w, step) && Fresh(w, step)
    ensures Attached(Apply(w, step))
  {
    hide HandleLine, LeaveRoom, Register, Plausible, Enumerates, Expired, MatchTimeout, ExpiryNotices, Merge;
    var s, v := w.server, Apply(w, step);
    match step
    case Say(client, parts, env) =>
      LineSettles(s, client, w.sessions[client].current, parts, env);
      SettlesKeepsAttached(w, v, client);
    case Locate(client, address, order, _) =>
      RegisterPeers(s, client, address, order);
      assert forall id, other | id in s.rooms && other in s.rooms[id].peers :: other in v.server.rooms[id].peers.Keys;
    case Hangup(client, env) =>
      var current := w.sessions[client].current;
      if current.Some? {
        LeavePeers(s, current.value, client, env.heirs, env.now);
      }
      SettlesKeepsAttached(w, v, client);
    case _ =>
  }

  // --- Every step ----------------------------------------------------------------------

  lemma EntranceCompletes(s: Server, client: ClientId, command: string, args: seq<string>, env: Env)
    requires AllComplete(s) && IsEntrance(command)
    ensures AllComplete(HandleEntrance(s, client, command, args, env).change.server)
  {
    hide AllComplete, IsId, DecodeTitle, NewRoom, PublicIds, TitleToken, JoinRoom;
    if args != [] {
      if JoinRoom(s, args[0], client, command == "JOIN_PUBLIC", env.now).Done? {
        JoinCompletes(s, args[0], client, command == "JOIN_PUBLIC", env.now);
      }
      CreateCompletes(s, args[0], client, Private, env.nonce, env.now);
      if |args| > 1 && DecodeTitle(args[1]).Some? {
        var rank := NextId(s.nextRank);
        var kind := Public(DecodeTitle(args[1]).value, rank);
        RankIsNoMatter(s, rank);
        CreateCompletes(s.(nextRank := rank), args[0], client, kind, env.nonce, env.now);
      }
    }
  }

  lemma RankIsNoMatter(s: Server, rank: u64)
    requires AllComplete(s)
    ensures AllComplete(s.(nextRank := rank))
  {
  }

  lemma LineCompletes(s: Server, client: ClientId, current: Option<RoomId>, parts: seq<string>, env: Env)
    requires AllComplete(s) && RoomsAreWellFormed(s)
    requires current.Some? && current.value in s.rooms ==> client in s.rooms[current.value].peers
    ensures AllComplete(HandleLine(s, client, current, parts, env).change.server)
  {
    hide AllComplete, RoomsAreWellFormed, HandleEntrance, RoomCommand, LeaveRoom, PublicList, Merge;
    if current.Some? {
      LeaveCompletes(s, current.value, client, env.heirs, env.now);
      if parts != [] {
        RoomCommandCompletes(s, client, current.value, parts[0], env.now);
      }
    }
    if parts != [] && IsEntrance(parts[0]) {
      EntranceCompletes(s, client, parts[0], parts[1..], env);
    }
  }

  lemma StepCompletes(w: World, step: Step)
    requires AllComplete(w.server) && RoomsAreWellFormed(w.server) && Attached(w) && Enabled(w, step)
    ensures AllComplete(Apply(w, step).server)
  {
    hide RoomsAreWellFormed, Complete, HandleLine, LeaveRoom, Register, Plausible, Enumerates, Expired, MatchTimeout, ExpiryNotices, Merge;
    match step
    case Say(client, parts, env) =>
      LineCompletes(w.server, client, w.sessions[client].current, parts, env);
    case Locate(client, address, order, _) =>
      RegisterCompletes(w.server, client, address, order);
    case Hangup(client, env) =>
      var current := w.sessions[client].current;
      if current.Some? {
        LeaveCompletes(w.server, current.value, client, env.heirs, env.now);
      }
    case _ =>
  }

  lemma {:induction false} FreshRunCompletes(w: World, steps: seq<Step>, end: World)
    requires Inv(w) && Attached(w) && AllComplete(w.server) && IsFreshRun(w, steps, end)
    ensures Inv(end) && Attached(end) && AllComplete(end.server)
    decreases |steps|
  {
    hide RoomsAreWellFormed, MembersAgree, Orderly, PublicInv, Attached, AllComplete, Enabled, Fresh, Apply;
    if steps != [] {
      ServerRanks.StepKeepsInv(w, steps[0]);
      StepKeepsAttached(w, steps[0]);
      StepCompletes(w, steps[0]);
      FreshRunCompletes(Apply(w, steps[0]), steps[1..], end);
    }
  }

  /** In every state reached with fresh room ids, every room is complete. */
  lemma PairingIsComplete(w: World)
    requires ReachableWithFreshIds(w)
    ensures Inv(w) && Attached(w) && AllComplete(w.server)
  {
    hide Inv;
    var start, steps :| IsFreshRun(START.(clock := start), steps, w);
    ServerRanks.StartInv(start);
    FreshRunCompletes(START.(clock := start), steps, w);
  }
}
