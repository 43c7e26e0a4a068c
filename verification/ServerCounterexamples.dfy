/** Complete runs of the server that show where two expectations fail. */
module ServerCounterexamples {
  import opened Prelude
  import opened Protocol
  import opened Rooms
  import opened ServerRuns
  import ServerPairing

  // --- Extending a run -----------------------------------------------------------------

  lemma {:induction false} OneStepMore(start: World, steps: seq<Step>, w: World, step: Step)
    requires IsRun(start, steps, w) && Enabled(w, step)
    ensures IsRun(start, steps + [step], Apply(w, step))
    decreases |steps|
  {
    hide Enabled, Apply;
    if steps == [] {
      assert [step][1..] == [];
      assert steps + [step] == [step];
    } else {
      OneStepMore(Apply(start, steps[0]), steps[1..], w, step);
      assert (steps + [step])[1..] == steps[1..] + [step];
    }
  }

  lemma Extends(w: World, step: Step)
    requires Reachable(w) && Enabled(w, step)
    ensures Reachable(Apply(w, step))
  {
    hide Enabled, Apply, IsRun;
    var start, steps :| IsRun(START.(clock := start), steps, w);
    OneStepMore(START.(clock := start), steps, w, step);
  }

  /** The part of a world the runs below are about. */
  ghost predicate Scene(w: World, rooms: map<RoomId, Room>, sessions: map<ClientId, Session>, clock: Instant) {
    Reachable(w) && w.server.rooms == rooms && w.sessions == sessions && w.clock == clock
  }

  lemma Arrives(w: World, client: ClientId) returns (v: World)
    requires Reachable(w) && client !in w.sessions
    ensures Scene(v, w.server.rooms, w.sessions[client := Session(None, true)], w.clock)
    ensures v.server.clients == w.server.clients[client := false]
  {
    hide Reachable;
    var step := Step.Arrive(client, w.clock);
    Extends(w, step);
    v := Apply(w, step);
  }

  lemma Says(w: World, client: ClientId, parts: seq<string>, env: Env) returns (v: World)
    requires Reachable(w) && Live(w, client) && Plausible(w, client, env) && w.clock <= env.now
    ensures
      var h := HandleLine(w.server, client, w.sessions[client].current, parts, env);
      && Scene(v, h.change.server.rooms, w.sessions[client := Session(h.current, true)], env.now)
      && v.timers == w.timers + h.change.timers && v.server.clients == h.change.server.clients
  {
    hide Reachable, HandleLine, Plausible;
    var step := Step.Say(client, parts, env);
    Extends(w, step);
    v := Apply(w, step);
  }

  lemma Creates(w: World, client: ClientId, id: RoomId, nonce: Nonce, now: Instant) returns (v: World)
    requires Reachable(w) && Live(w, client) && w.sessions[client].current.None? && w.clock <= now
    requires w.server.rooms == map[] && IsId(id)
    ensures Scene(v, map[id := NewRoom(client, Private, nonce, now)], w.sessions[client := Session(Some(id), true)], now)
    ensures v.timers == w.timers && v.server.clients == w.server.clients
  {
    hide Reachable, IsId;
    var env := Env(true, true, nonce, now, [], []);
    var parts := ["CREATE", id];
    assert parts[1..] == [id];
    CreateHandled(w.server, client, id, env);
    v := Says(w, client, parts, env);
  }

  lemma CreateHandled(s: Server, client: ClientId, id: RoomId, env: Env)
    requires env.allowed && env.roomAllowed && IsId(id) && id !in s.rooms
    ensures HandleLine(s, client, None, ["CREATE", id], env) ==
            Handled(CreateRoom(s, id, client, env.nonce, env.now).change, Some(id))
  {
    hide IsId;
    assert ["CREATE", id][1..] == [id];
  }

  lemma JoinHandled(s: Server, client: ClientId, id: RoomId, env: Env)
    requires env.allowed && env.roomAllowed && IsId(id) && JoinRoom(s, id, client, false, env.now).Done?
    ensures HandleLine(s, client, None, ["JOIN", id], env) ==
            Handled(JoinRoom(s, id, client, false, env.now).change, Some(id))
  {
    hide IsId, JoinRoom;
    assert ["JOIN", id][1..] == [id];
  }

  lemma FailureHandled(s: Server, client: ClientId, id: RoomId, env: Env)
    requires env.allowed
    ensures HandleLine(s, client, Some(id), ["P2P_FAILED"], env) == Handled(NotifyDisconnected(s, id, client), Some(id))
  {
    hide NotifyDisconnected;
    assert ["P2P_FAILED"][1..] == [];
  }

  lemma LeaveHandled(s: Server, client: ClientId, id: RoomId, env: Env)
    requires env.allowed
    ensures HandleLine(s, client, Some(id), ["LEAVE"], env) == HandleLeave(s, client, Some(id), env)
  {
    hide HandleLeave;
    assert ["LEAVE"][1..] == [];
  }

  /** The room of two peers with nothing registered. */
  function Pair(a: ClientId, b: ClientId, nonce: Nonce, now: Instant): Room {
    Room(a, Private, nonce, now, map[a := NO_ENDPOINTS, b := NO_ENDPOINTS], None, false)
  }

  lemma Joins(w: World, a: ClientId, b: ClientId, id: RoomId, nonce: Nonce) returns (v: World)
    requires Reachable(w) && Live(w, b) && w.sessions[b].current.None? && a != b
    requires w.server.rooms == map[id := NewRoom(a, Private, nonce, w.clock)] && IsId(id)
    ensures Scene(v, map[id := Pair(a, b, nonce, w.clock)], w.sessions[b := Session(Some(id), true)], w.clock)
    ensures v.timers == w.timers + {Timer(id, nonce, w.clock + PEER_MATCH_TIMEOUT)} && v.server.clients == w.server.clients
  {
    hide Reachable, IsId, HandleLine;
    var env := Env(true, true, nonce, w.clock, [], [id]);
    JoinHandled(w.server, b, id, env);
    v := Says(w, b, ["JOIN", id], env);
    assert v.server.rooms[id].peers == Pair(a, b, nonce, w.clock).peers;
  }

  lemma Locates(w: World, id: RoomId, client: ClientId, address: Address) returns (v: World)
    requires Reachable(w) && w.server.rooms.Keys == {id} && client in w.server.rooms[id].peers
    ensures Reachable(v) && v.sessions == w.sessions && v.clock == w.clock && v.timers == w.timers
    ensures v.server == Register(w.server, client, address, [id]).server
  {
    hide Reachable, Exchange, Merge, CommonFamily;
    var step := Step.Locate(client, address, [id], w.clock);
    Extends(w, step);
    v := Apply(w, step);
  }

  lemma Sweeps(w: World, id: RoomId, client: ClientId, nonce: Nonce, now: Instant) returns (v: World)
    requires Reachable(w) && w.server.rooms == map[id := NewRoom(client, Private, nonce, w.clock)]
    requires now == w.clock + ROOM_TTL
    ensures Scene(v, map[], w.sessions, now) && v.server.clients == w.server.clients
  {
    hide Reachable, Expired, Enumerates, Cleanup;
    LonelyRoomExpires(w.server, id, client, nonce, w.clock);
    var step := Step.Sweep([id], now);
    Extends(w, step);
    v := Apply(w, step);
  }

  lemma LonelyRoomExpires(s: Server, id: RoomId, client: ClientId, nonce: Nonce, created: Instant)
    requires s.rooms == map[id := NewRoom(client, Private, nonce, created)]
    ensures Enumerates([id], Expired(s, created + ROOM_TTL))
    ensures Cleanup(s, [id]).server.rooms == map[] && Cleanup(s, [id]).server.clients == s.clients
  {
    hide ExpiryNotices;
    assert Expired(s, created + ROOM_TTL) == {id};
  }

  // --- What the last steps do ----------------------------------------------------------

  lemma RegisterPairs(s: Server, id: RoomId, client: ClientId, address: Address)
    requires id in s.rooms && client in s.rooms[id].peers
    ensures
      var room := Located(s.rooms[id], client, address);
      Register(s, client, address, [id]).server ==
      if ReadyToPair(room) then s.(rooms := s.rooms[id := room.(selected := CommonFamily(room.peers))])
      else s.(rooms := s.rooms[id := room])
  {
    hide Exchange, Merge, CommonFamily;
  }

  lemma BothHaveV4Only(peers: map<ClientId, Endpoints>, a: ClientId, b: ClientId)
    requires peers.Keys == {a, b} && peers[a].ipv4.Some? && peers[b].ipv4.Some? && peers[a].ipv6.None?
    ensures CommonFamily(peers) == Some(V4)
  {
  }

  lemma StrangerUnpairs(s: Server, id: RoomId, a: ClientId, b: ClientId, c: ClientId, now: Instant)
    requires a != b && c != a && c != b && id in s.rooms && s.rooms[id].peers.Keys == {a, b}
    requires CommonFamily(s.rooms[id].peers).Some?
    ensures OrdersHeirs(s, id, c, [a, b])
    ensures
      var t := LeaveRoom(s, id, c, [a, b], now).server;
      id in t.rooms && !ServerPairing.Complete(t.rooms[id])
  {
    hide CommonFamily;
    var peers := s.rooms[id].peers;
    assert c !in peers.Keys;
    assert peers - {c} == peers && |peers.Keys| == 2;
  }

  /** Endpoints that two peers of a failed room register. */
  lemma LateEndpoints(s: Server, id: RoomId, a: ClientId, b: ClientId, timer: Timer)
    requires a != b && id in s.rooms && s.rooms[id].failed && s.rooms[id].selected.None?
    requires s.rooms[id].peers.Keys == {a, b} && a in s.clients && s.clients[a]
    requires timer.room == id && timer.nonce == s.rooms[id].sessionNonce
    ensures
      var t := Register(Register(s, a, Ipv6(1), [id]).server, b, Ipv6(2), [id]).server;
      && id in t.rooms && CommonFamily(t.rooms[id].peers) == Some(V6)
      && LinesTo(MatchTimeout(t, timer), a) == [Text("P2P_UNAVAILABLE ADDRESS_FAMILY")]
  {
    hide CommonFamily, Register;
    RegisterAlone(s, id, a, Ipv6(1));
    var s4 := Register(s, a, Ipv6(1), [id]).server;
    assert s4.rooms[id].peers.Keys == {a, b};
    RegisterAlone(s4, id, b, Ipv6(2));
    var s5 := Register(s4, b, Ipv6(2), [id]).server;
    assert s5.rooms[id].peers.Keys == {a, b};
    BothHaveV6(s5.rooms[id].peers, a, b);
  }

  lemma RegisterAlone(s: Server, id: RoomId, client: ClientId, address: Address)
    requires id in s.rooms && client in s.rooms[id].peers && s.rooms[id].failed
    ensures Register(s, client, address, [id]).server == s.(rooms := s.rooms[id := Located(s.rooms[id], client, address)])
  {
    hide Exchange, Merge, CommonFamily;
  }

  lemma BothHaveV6(peers: map<ClientId, Endpoints>, a: ClientId, b: ClientId)
    requires peers.Keys == {a, b} && peers[a].ipv6.Some? && peers[b].ipv6.Some?
    ensures CommonFamily(peers) == Some(V6)
  {
  }

  // --- The two runs --------------------------------------------------------------------

  lemma Starts() returns (w: World)
    ensures Scene(w, map[], map[], 0) && w.server.clients == map[] && w.timers == {}
  {
    assert IsRun(START.(clock := 0), [], START);
    w := START;
  }

  /** Three clients have arrived and nothing else has happened. */
  lemma ThreeArrive(a: ClientId, b: ClientId, c: ClientId) returns (w: World)
    requires a != b && a != c && b != c
    ensures Reachable(w) && w.server.rooms == map[]
    ensures forall client | client in {a, b, c} :: client in w.sessions && w.sessions[client] == Session(None, true)
    ensures w.server.clients == map[a := false, b := false, c := false]
  {
    hide Reachable;
    w := Starts();
    w := Arrives(w, a);
    w := Arrives(w, b);
    w := Arrives(w, c);
  }

  /** `a` has made the room and `b` has joined it, at the time that is. */
  lemma Meet(w: World, a: ClientId, b: ClientId, id: RoomId, nonce: Nonce) returns (v: World)
    requires Reachable(w) && w.server.rooms == map[] && IsId(id) && a != b
    requires Live(w, a) && Live(w, b) && w.sessions[a].current.None? && w.sessions[b].current.None?
    ensures Scene(v, map[id := Pair(a, b, nonce, w.clock)],
                  w.sessions[a := Session(Some(id), true)][b := Session(Some(id), true)], w.clock)
    ensures Timer(id, nonce, w.clock + PEER_MATCH_TIMEOUT) in v.timers && v.server.clients == w.server.clients
  {
    hide Reachable, IsId;
    v := Creates(w, a, id, nonce, w.clock);
    v := Joins(v, a, b, id, nonce);
  }

  /** Both register IPv4 and are paired. */
  lemma PairUp(w: World, a: ClientId, b: ClientId, id: RoomId, nonce: Nonce) returns (v: World)
    requires Reachable(w) && a != b && w.server.rooms == map[id := Pair(a, b, nonce, w.clock)]
    ensures Reachable(v) && v.sessions == w.sessions && v.clock == w.clock
    ensures v.server.rooms.Keys == {id} && v.server.rooms[id].peers.Keys == {a, b}
    ensures v.server.rooms[id].selected == Some(V4) && CommonFamily(v.server.rooms[id].peers) == Some(V4)
  {
    hide Reachable, Register, CommonFamily;
    RegisterPairs(w.server, id, a, Ipv4(1));
    var p := Located(w.server.rooms[id], a, Ipv4(1)).peers;
    assert p.Keys == {a, b} && p[b] == NO_ENDPOINTS;
    ServerPairing.NobodyHasNothing(p, b);
    v := Locates(w, id, a, Ipv4(1));
    var u := v;
    RegisterPairs(u.server, id, b, Ipv4(2));
    var q := Located(u.server.rooms[id], b, Ipv4(2)).peers;
    assert q.Keys == {a, b};
    BothHaveV4Only(q, a, b);
    v := Locates(u, id, b, Ipv4(2));
  }

  lemma SomeId() returns (id: RoomId)
    ensures IsId(id)
  {
    var bytes: seq<byte> := seq(16, _ => 0);
    HexRoundTrip(bytes);
    id := Hex(bytes);
  }

  /** Pairing is not complete in every run: `c` keeps the id of its room after the room has
      expired, `a` and `b` meet and are paired under that id, and then `c` leaves. */
  lemma ReusedIdsBreakPairing(a: ClientId, b: ClientId, c: ClientId, nonce: Nonce)
    requires a != b && a != c && b != c
    ensures exists w :: Reachable(w) && !ServerPairing.AllComplete(w.server)
  {
    hide Reachable, IsId, LeaveRoom, HandleLine, CommonFamily, ServerPairing.Complete, Register;
    var id := SomeId();
    var w := ThreeArrive(a, b, c);
    w := Creates(w, c, id, nonce, w.clock);
    w := Sweeps(w, id, c, nonce, w.clock + ROOM_TTL);
    w := Meet(w, a, b, id, nonce);
    w := PairUp(w, a, b, id, nonce);
    var env := Env(true, true, nonce, w.clock, [a, b], [id]);
    StrangerUnpairs(w.server, id, a, b, c, env.now);
    LeaveHandled(w.server, c, id, env);
    var v := Says(w, c, ["LEAVE"], env);
    assert Reachable(v) && !ServerPairing.Complete(v.server.rooms[id]);
  }

  lemma Announces(w: World, client: ClientId) returns (v: World)
    requires Reachable(w) && client in w.server.clients
    ensures Scene(v, w.server.rooms, w.sessions, w.clock)
    ensures v.server.clients == w.server.clients[client := true] && v.timers == w.timers
  {
    hide Reachable;
    var step := Step.Announce(client, true, w.clock);
    Extends(w, step);
    v := Apply(w, step);
  }

  /** In a room marked failed the match time-out can be wrong: endpoints that arrive after
      the failure are kept but not paired. */
  lemma FailedRoomsMayBeMisreported(a: ClientId, b: ClientId, c: ClientId, nonce: Nonce)
    requires a != b && a != c && b != c
    ensures exists w, timer ::
              && Reachable(w) && timer in w.timers && timer.room in w.server.rooms
              && MatchTimeout(w.server, timer) != map[] && CommonFamily(w.server.rooms[timer.room].peers).Some?
  {
    hide Reachable, CommonFamily, MatchTimeout;
    var w, timer := MeetAndFail(a, b, c, nonce);
    w := RegisterLate(w, timer.room, a, b, timer);
  }

  /** `a`, who supports dual stack, and `b` have met and `a` has reported failure. */
  lemma MeetAndFail(a: ClientId, b: ClientId, c: ClientId, nonce: Nonce) returns (w: World, timer: Timer)
    requires a != b && a != c && b != c
    ensures Reachable(w) && w.server.rooms.Keys == {timer.room} && timer in w.timers
    ensures
      var room := w.server.rooms[timer.room];
      room.failed && room.selected.None? && room.peers.Keys == {a, b} && timer.nonce == room.sessionNonce
    ensures a in w.server.clients && w.server.clients[a]
  {
    hide Reachable, IsId;
    var id := SomeId();
    w := ThreeArrive(a, b, c);
    w := Announces(w, a);
    w := Meet(w, a, b, id, nonce);
    timer := Timer(id, nonce, w.clock + PEER_MATCH_TIMEOUT);
    w := ReportsFailure(w, a, b, id, nonce);
  }

  lemma ReportsFailure(w: World, a: ClientId, b: ClientId, id: RoomId, nonce: Nonce) returns (v: World)
    requires Reachable(w) && a != b && w.server.rooms == map[id := Pair(a, b, nonce, w.clock)]
    requires a in w.sessions && w.sessions[a] == Session(Some(id), true)
    ensures Reachable(v) && v.server.rooms == map[id := Pair(a, b, nonce, w.clock).(failed := true)]
    ensures w.timers <= v.timers && v.server.clients == w.server.clients
  {
    hide Reachable, HandleLine, NotifyDisconnected, Plausible;
    var env := Env(true, true, nonce, w.clock, [b], [id]);
    IsPlausible(w, a, b, id, env);
    FailureHandled(w.server, a, id, env);
    FailureLatches(w.server, id, a, b, nonce, w.clock);
    v := Says(w, a, ["P2P_FAILED"], env);
  }

  lemma IsPlausible(w: World, a: ClientId, b: ClientId, id: RoomId, env: Env)
    requires a != b && w.server.rooms.Keys == {id} && w.server.rooms[id].peers.Keys == {a, b}
    requires a in w.sessions && w.sessions[a].current == Some(id)
    requires env.heirs == [b] && env.listing == [id]
    ensures Plausible(w, a, env)
  {
  }

  lemma FailureLatches(s: Server, id: RoomId, a: ClientId, b: ClientId, nonce: Nonce, now: Instant)
    requires a != b && s.rooms == map[id := Pair(a, b, nonce, now)]
    ensures NotifyDisconnected(s, id, a).server == s.(rooms := map[id := Pair(a, b, nonce, now).(failed := true)])
    ensures NotifyDisconnected(s, id, a).timers == {}
  {
    var room := s.rooms[id];
    assert room.peers.Keys == {a, b} && |room.peers.Keys| == 2;
    assert s.rooms[id := room.(failed := true)] == map[id := room.(failed := true)];
  }

  lemma RegisterLate(w: World, id: RoomId, a: ClientId, b: ClientId, timer: Timer) returns (v: World)
    requires Reachable(w) && a != b && w.server.rooms.Keys == {id} && timer in w.timers
    requires w.server.rooms[id].failed && w.server.rooms[id].selected.None? && w.server.rooms[id].peers.Keys == {a, b}
    requires a in w.server.clients && w.server.clients[a]
    requires timer.room == id && timer.nonce == w.server.rooms[id].sessionNonce
    ensures Reachable(v) && timer in v.timers && id in v.server.rooms
    ensures MatchTimeout(v.server, timer) != map[] && CommonFamily(v.server.rooms[id].peers).Some?
  {
    hide Reachable, Register, CommonFamily, MatchTimeout;
    LateEndpoints(w.server, id, a, b, timer);
    RegisterAlone(w.server, id, a, Ipv6(1));
    v := Locates(w, id, a, Ipv6(1));
    v := Locates(v, id, b, Ipv6(2));
  }
}
