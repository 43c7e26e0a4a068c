/** What every reachable state of the signaling server satisfies. */
module ServerInvariant {
  import opened Prelude
  import opened Protocol
  import opened Rooms
  import opened ServerRuns

  // --- Rooms ---------------------------------------------------------------------------

  predicate RightFamilies(endpoints: Endpoints) {
    && (endpoints.ipv4.Some? ==> endpoints.ipv4.value.Ipv4?)
    && (endpoints.ipv6.Some? ==> endpoints.ipv6.value.Ipv6?)
  }

  predicate WellFormed(room: Room) {
    && 1 <= |room.peers| <= 2
    && room.creator in room.peers
    && (room.selected.Some? ==> |room.peers| == 2 && AllHave(room.peers, room.selected.value))
    && (room.failed ==> |room.peers| == 2)
    && (forall client | client in room.peers :: RightFamilies(room.peers[client]))
    && (room.kind.Public? ==> IsTitle(room.kind.title))
  }

  ghost predicate RoomsAreWellFormed(s: Server) {
    forall id | id in s.rooms :: IsId(id) && WellFormed(s.rooms[id])
  }

  /** The transcript of a member agrees with the room. */
  predicate InStep(lines: seq<Line>, room: Room) {
    && NonceOf(lines) == Some(room.sessionNonce)
    && PhaseOf(lines).Some?
    && var phase := PhaseOf(lines).value;
       && phase.disconnected == room.failed
       && (phase.exchanges == [] ==> room.selected.None?)
       && (phase.exchanges != [] ==> room.selected == Some(phase.exchanges[|phase.exchanges| - 1]))
  }

  /** A member's handler is in the room, and only there. */
  ghost predicate IsMember(w: World, id: RoomId, client: ClientId)
    requires id in w.server.rooms
  {
    && client in w.sessions
    && w.sessions[client].current == Some(id)
    && InStep(LinesTo(w.heard, client), w.server.rooms[id])
  }

  ghost predicate MembersAgree(w: World) {
    forall id, client | id in w.server.rooms && client in w.server.rooms[id].peers :: IsMember(w, id, client)
  }

  ghost predicate Orderly(w: World) {
    forall client :: PhaseOf(LinesTo(w.heard, client)).Some?
  }

  // --- Ranks ---------------------------------------------------------------------------

  ghost predicate Ranked(s: Server) {
    && (forall id | id in s.rooms && s.rooms[id].kind.Public? :: 1 <= s.rooms[id].kind.rank <= s.nextRank)
    && (forall a, b | a in s.rooms && b in s.rooms && a != b && s.rooms[a].kind.Public? && s.rooms[b].kind.Public? ::
          s.rooms[a].kind.rank != s.rooms[b].kind.rank)
  }

  ghost predicate PublicInv(w: World) {
    && |PublicIds(w.server)| <= MAX_PUBLIC_ROOMS
    && (w.bumps <= MAX_U64 ==> w.server.nextRank == w.bumps && Ranked(w.server))
  }

  ghost predicate Inv(w: World) {
    RoomsAreWellFormed(w.server) && MembersAgree(w) && Orderly(w) && PublicInv(w)
  }

  // --- Changes that concern one room ---------------------------------------------------

  /** Everyone else hears nothing of weight and stays where they are. */
  ghost predicate Undisturbed(w: World, v: World, out: Out, client: ClientId) {
    && (client in w.sessions ==> client in v.sessions && v.sessions[client].current == w.sessions[client].current)
    && forall line | line in LinesTo(out, client) :: Neutral(line)
  }

  /** Not a member of any room but, perhaps, the given one. */
  ghost predicate OnlyIn(w: World, id: RoomId, client: ClientId) {
    client !in w.sessions || w.sessions[client].current == None || w.sessions[client].current == Some(id)
  }

  /** `v` is `w` after a change of the room `id` alone, during which `out` was sent. */
  ghost predicate Touches(w: World, v: World, out: Out, id: RoomId) {
    && v.heard == Merge(w.heard, out)
    && (forall other | other != id :: other in v.server.rooms <==> other in w.server.rooms)
    && (forall other | other != id && other in w.server.rooms :: v.server.rooms[other] == w.server.rooms[other])
    && (forall client :: Undisturbed(w, v, out, client) || OnlyIn(w, id, client))
    && (forall client :: PhaseOf(LinesTo(v.heard, client)).Some?)
    && (id in v.server.rooms ==>
          && IsId(id)
          && WellFormed(v.server.rooms[id])
          && forall client | client in v.server.rooms[id].peers :: IsMember(v, id, client))
  }

  lemma HeardAppends(w: World, out: Out, client: ClientId)
    ensures LinesTo(Merge(w.heard, out), client) == LinesTo(w.heard, client) + LinesTo(out, client)
  {
  }

  lemma TouchKeeps(w: World, v: World, out: Out, id: RoomId)
    requires RoomsAreWellFormed(w.server) && MembersAgree(w) && Touches(w, v, out, id)
    ensures RoomsAreWellFormed(v.server) && MembersAgree(v) && Orderly(v)
  {
    hide PhaseOf, NonceOf, InStep, Merge, WellFormed;
    forall other, client | other in v.server.rooms && client in v.server.rooms[other].peers
      ensures IsMember(v, other, client)
    {
      if other != id {
        MemberElsewhere(w, v, out, id, other, client);
      }
    }
  }

  lemma MemberElsewhere(w: World, v: World, out: Out, id: RoomId, other: RoomId, client: ClientId)
    requires v.heard == Merge(w.heard, out) && other != id
    requires other in w.server.rooms && other in v.server.rooms && v.server.rooms[other] == w.server.rooms[other]
    requires IsMember(w, other, client) && (Undisturbed(w, v, out, client) || OnlyIn(w, id, client))
    ensures IsMember(v, other, client)
  {
    HeardAppends(w, out, client);
    NeutralLines(LinesTo(w.heard, client), LinesTo(out, client));
    hide PhaseOf, NonceOf, Merge;
  }

  /** Nobody hears anything of weight and no room changes. */
  lemma QuietKeeps(w: World, v: World, out: Out)
    requires RoomsAreWellFormed(w.server) && MembersAgree(w) && Orderly(w)
    requires v.heard == Merge(w.heard, out)
    requires forall id | id in v.server.rooms :: id in w.server.rooms && v.server.rooms[id] == w.server.rooms[id]
    requires forall client, line | line in LinesTo(out, client) :: Neutral(line)
    requires forall client | client in w.sessions ::
               client in v.sessions && (v.sessions[client].current == w.sessions[client].current ||
                 forall id | id in v.server.rooms :: client !in v.server.rooms[id].peers)
    ensures RoomsAreWellFormed(v.server) && MembersAgree(v) && Orderly(v)
  {
    forall client
      ensures PhaseOf(LinesTo(v.heard, client)) == PhaseOf(LinesTo(w.heard, client))
      ensures NonceOf(LinesTo(v.heard, client)) == NonceOf(LinesTo(w.heard, client))
    {
      HeardAppends(w, out, client);
      NeutralLines(LinesTo(w.heard, client), LinesTo(out, client));
    }
    forall id, client | id in v.server.rooms && client in v.server.rooms[id].peers ensures IsMember(v, id, client) {
      assert IsMember(w, id, client);
    }
  }
}
