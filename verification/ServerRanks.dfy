/** Ranks and the number of public rooms, over every step. */
module ServerRanks {
  import opened Prelude
  import opened Protocol
  import opened Rooms
  import opened ServerRuns
  import opened ServerInvariant
  import ServerLines

  /** No public room is new and none has another rank. */
  ghost predicate KeepsKinds(s: Server, t: Server) {
    && t.nextRank == s.nextRank
    && forall id | id in t.rooms && t.rooms[id].kind.Public? :: id in s.rooms && s.rooms[id].kind == t.rooms[id].kind
  }

  /** The open room `id` takes the next rank; otherwise as above. */
  ghost predicate Promotes(s: Server, t: Server, id: RoomId) {
    && t.nextRank == NextId(s.nextRank)
    && id in t.rooms && t.rooms[id].kind.Public? && t.rooms[id].kind.rank == t.nextRank && |t.rooms[id].peers| == 1
    && (id in PublicIds(s) || |PublicIds(s)| < MAX_PUBLIC_ROOMS)
    && forall other | other != id && other in t.rooms && t.rooms[other].kind.Public? ::
         other in s.rooms && s.rooms[other].kind == t.rooms[other].kind
  }

  ghost predicate RankStep(s: Server, t: Server) {
    KeepsKinds(s, t) || exists id :: Promotes(s, t, id)
  }

  lemma SubsetIsNoLarger<T>(a: set<T>, b: set<T>)
    requires a <= b
    ensures |a| <= |b|
  {
    assert b == a + (b - a);
  }

  lemma RankStepKeeps(w: World, v: World)
    requires PublicInv(w) && RankStep(w.server, v.server)
    requires v.bumps == w.bumps + (if v.server.nextRank != w.server.nextRank then 1 else 0)
    ensures PublicInv(v)
  {
    var s, t := w.server, v.server;
    if KeepsKinds(s, t) {
      SubsetIsNoLarger(PublicIds(t), PublicIds(s));
    } else {
      var id :| Promotes(s, t, id);
      assert PublicIds(t) <= PublicIds(s) + {id};
      SubsetIsNoLarger(PublicIds(t), PublicIds(s) + {id});
      if id in PublicIds(s) {
        assert PublicIds(s) + {id} == PublicIds(s);
      }
    }
  }

  // --- Operations ----------------------------------------------------------------------

  lemma LeaveRanks(s: Server, id: RoomId, client: ClientId, heirs: seq<ClientId>, now: Instant)
    ensures RankStep(s, LeaveRoom(s, id, client, heirs, now).server)
    ensures Reopens(s, id, client) ==> Promotes(s, LeaveRoom(s, id, client, heirs, now).server, id)
  {
    var t := LeaveRoom(s, id, client, heirs, now).server;
    if Reopens(s, id, client) {
      var rank := Some(NextId(s.nextRank));
      var next := Departed(s.rooms[id], client, heirs, rank, now);
      assert next.peers.Keys == s.rooms[id].peers.Keys - {client};
      assert |next.peers.Keys| == 1 && next.peers != map[];
      assert Promotes(s, t, id);
    } else {
      assert KeepsKinds(s, t);
    }
  }

  lemma CreateRanks(s: Server, id: RoomId, title: string, client: ClientId, nonce: Nonce, now: Instant)
    requires CreatePublicRoom(s, id, title, client, nonce, now).Done?
    ensures Promotes(s, CreatePublicRoom(s, id, title, client, nonce, now).change.server, id)
  {
    hide PublicIds, TitleToken;
  }

  lemma RegisterRanks(s: Server, client: ClientId, address: Address, order: seq<RoomId>)
    ensures KeepsKinds(s, Register(s, client, address, order).server)
  {
    hide Exchange, Merge, CommonFamily;
  }

  lemma RoomCommandRanks(s: Server, client: ClientId, room: RoomId, command: string, now: Instant)
    ensures KeepsKinds(s, RoomCommand(s, client, room, command, now).server)
  {
    hide Exchange;
  }

  lemma EntranceRanks(s: Server, client: ClientId, command: string, args: seq<string>, env: Env)
    requires IsEntrance(command)
    ensures RankStep(s, HandleEntrance(s, client, command, args, env).change.server)
  {
    hide Promotes, IsId, DecodeTitle;
    if command == "CREATE_PUBLIC" && |args| == 2 && DecodeTitle(args[1]).Some? && IsId(args[0]) {
      var title := DecodeTitle(args[1]).value;
      if CreatePublicRoom(s, args[0], title, client, env.nonce, env.now).Done? {
        CreateRanks(s, args[0], title, client, env.nonce, env.now);
      } else {
        hide PublicIds;
        assert KeepsKinds(s, s);
      }
    } else {
      hide CreatePublicRoom;
      assert KeepsKinds(s, HandleEntrance(s, client, command, args, env).change.server);
    }
  }

  lemma LineRanks(s: Server, client: ClientId, current: Option<RoomId>, parts: seq<string>, env: Env)
    ensures RankStep(s, HandleLine(s, client, current, parts, env).change.server)
  {
    hide HandleEntrance, RoomCommand, LeaveRoom, Promotes, PublicList, Merge;
    assert KeepsKinds(s, s);
    if current.Some? {
      LeaveRanks(s, current.value, client, env.heirs, env.now);
      if parts != [] {
        RoomCommandRanks(s, client, current.value, parts[0], env.now);
      }
    }
    if parts != [] && IsEntrance(parts[0]) {
      EntranceRanks(s, client, parts[0], parts[1..], env);
    }
    hide KeepsKinds;
  }

  lemma StepRanks(w: World, step: Step)
    requires Enabled(w, step)
    ensures RankStep(w.server, ChangeOf(w, step).server)
  {
    hide HandleLine, LeaveRoom, Register, Promotes, Plausible, Enumerates, Expired, MatchTimeout, ExpiryNotices;
    assert KeepsKinds(w.server, w.server);
    match step
    case Say(client, parts, env) =>
      LineRanks(w.server, client, w.sessions[client].current, parts, env);
    case Locate(client, address, order, _) =>
      RegisterRanks(w.server, client, address, order);
    case Hangup(client, env) =>
      var current := w.sessions[client].current;
      if current.Some? {
        LeaveRanks(w.server, current.value, client, env.heirs, env.now);
        WithoutClients(w.server, LeaveRoom(w.server, current.value, client, env.heirs, env.now).server, client);
      }
    case _ =>
  }

  lemma WithoutClients(s: Server, t: Server, client: ClientId)
    requires RankStep(s, t)
    ensures RankStep(s, t.(clients := t.clients - {client}))
  {
    if !KeepsKinds(s, t) {
      var id :| Promotes(s, t, id);
      assert Promotes(s, t.(clients := t.clients - {client}), id);
    }
  }

  // --- The whole invariant -------------------------------------------------------------

  lemma StepKeepsInv(w: World, step: Step)
    requires Inv(w) && Enabled(w, step)
    ensures Inv(Apply(w, step))
  {
    hide RoomsAreWellFormed, MembersAgree, Orderly, PublicInv, RankStep, ChangeOf, Enabled, Merge;
    ServerLines.StepKeepsSound(w, step);
    StepRanks(w, step);
    RankStepKeeps(w, Apply(w, step));
  }

  lemma StartInv(start: Instant)
    ensures Inv(START.(clock := start))
  {
  }

  lemma {:induction false} RunKeepsInv(w: World, steps: seq<Step>, end: World)
    requires Inv(w) && IsRun(w, steps, end)
    ensures Inv(end)
    decreases |steps|
  {
    hide Inv, Enabled, Apply;
    if steps != [] {
      StepKeepsInv(w, steps[0]);
      RunKeepsInv(Apply(w, steps[0]), steps[1..], end);
    }
  }

  /** The invariant of the server, over every run. */
  lemma ReachableInv(w: World)
    requires Reachable(w)
    ensures Inv(w)
  {
    var start, steps :| IsRun(START.(clock := start), steps, w);
    StartInv(start);
    RunKeepsInv(START.(clock := start), steps, w);
  }
}
