/** The signaling server as it keeps its state: tables behind a lock, updated in place. Each
    method is specified by the same operation on the value of the state, so what is proved
    about `Rooms` holds of this object. */
module Signaling {
  import opened Prelude
  import opened Protocol
  import opened Rooms

  class SignalingServer {
    var rooms: map<RoomId, Room>
    var clients: map<ClientId, bool>
    var nextPublicRank: u64

    function View(): Server
      reads this
    {
      Server(rooms, clients, nextPublicRank)
    }

    constructor ()
      ensures View() == EMPTY_SERVER
    {
      rooms, clients, nextPublicRank := map[], map[], 0;
    }

    method Connect(client: ClientId)
      modifies this
      ensures View() == Rooms.Connect(old(View()), client)
    {
      clients := clients[client := false];
    }

    method Probe(client: ClientId, dualStack: bool)
      modifies this
      ensures View() == Rooms.Probe(old(View()), client, dualStack)
    {
      if client in clients {
        clients := clients[client := clients[client] || dualStack];
      }
    }

    // --- Entering ----------------------------------------------------------------------

    method CreateRoom(room: RoomId, client: ClientId, nonce: Nonce, now: Instant) returns (error: Option<string>, out: Out)
      modifies this
      ensures Outcome(old(View()), error, out, {}, Rooms.CreateRoom(old(View()), room, client, nonce, now))
    {
      if room in rooms {
        return Some("ROOM_EXISTS"), map[];
      }
      var peers := map[client := NO_ENDPOINTS];
      rooms := rooms[room := Room(client, Private, nonce, now, peers, None, false)];
      return None, map[client := [Created(room, nonce)]];
    }

    /** An attempt went through with this effect, or was refused and had none. */
    predicate Outcome(was: Server, error: Option<string>, out: Out, timers: set<Timer>, attempt: Attempt)
      reads this
    {
      match attempt
      case Done(change) => error.None? && change == Change(View(), out, timers)
      case Refused(code) => error == Some(code) && View() == was && out == map[] && timers == {}
    }

    method CreatePublicRoom(room: RoomId, title: string, client: ClientId, nonce: Nonce, now: Instant)
      returns (error: Option<string>, out: Out)
      requires IsTitle(title)
      modifies this
      ensures Outcome(old(View()), error, out, {}, Rooms.CreatePublicRoom(old(View()), room, title, client, nonce, now))
    {
      if room in rooms {
        return Some("ROOM_EXISTS"), map[];
      }
      if |set id | id in rooms && rooms[id].kind.Public?| >= MAX_PUBLIC_ROOMS {
        return Some("PUBLIC_ROOM_LIMIT"), map[];
      }
      nextPublicRank := NextId(nextPublicRank);
      var peers := map[client := NO_ENDPOINTS];
      rooms := rooms[room := Room(client, Public(title, nextPublicRank), nonce, now, peers, None, false)];
      // The title is normalised, so it has an encoding.
      var token := EncodeTitle(title).value;
      return None, map[client := [PublicCreated(room, nonce, token)]];
    }

    method JoinRoom(room: RoomId, client: ClientId, public: bool, now: Instant)
      returns (error: Option<string>, out: Out, timers: set<Timer>)
      modifies this
      ensures Outcome(old(View()), error, out, timers, Rooms.JoinRoom(old(View()), room, client, public, now))
    {
      if room !in rooms || rooms[room].kind.Public? != public {
        return Some("ROOM_NOT_FOUND"), map[], {};
      }
      if |rooms[room].peers| >= 2 {
        return Some("ROOM_FULL"), map[], {};
      }
      rooms := rooms[room := rooms[room].(peers := rooms[room].peers[client := NO_ENDPOINTS])];
      out := map[client := [JoinReply(room, rooms[room])]];
      timers := {Timer(room, rooms[room].sessionNonce, now + PEER_MATCH_TIMEOUT)};
      return None, out, timers;
    }

    // --- Leaving -----------------------------------------------------------------------

    method LeaveRoom(room: RoomId, client: ClientId, heirs: seq<ClientId>, now: Instant) returns (out: Out)
      requires OrdersHeirs(View(), room, client, heirs)
      modifies this
      ensures Change(View(), out, {}) == Rooms.LeaveRoom(old(View()), room, client, heirs, now)
    {
      var reopens := room in rooms && rooms[room].kind.Public? && |rooms[room].peers| == 2 && client in rooms[room].peers;
      if reopens {
        nextPublicRank := NextId(nextPublicRank);
      }
      if room !in rooms {
        return map[];
      }
      var departingCreator := rooms[room].creator == client;
      var next := rooms[room].(peers := rooms[room].peers - {client}, selected := None, failed := false);
      if heirs != [] {
        if departingCreator {
          next := next.(creator := heirs[0]);
        }
        next := next.(createdAt := now);
      }
      if reopens {
        next := next.(kind := next.kind.(rank := nextPublicRank));
      }
      out := Broadcast(next.peers.Keys, Text("PEER_LEFT"));
      rooms := rooms[room := next];
      if next.peers == map[] {
        rooms := rooms - {room};
      }
      assert rooms == Rooms.LeaveRoom(old(View()), room, client, heirs, now).server.rooms;
    }

    // --- Pairing -----------------------------------------------------------------------

    /** One line for each of the two peers, with what the other registered. */
    method SendPeers(room: Room, family: Family) returns (out: Out)
      requires |room.peers| == 2 && AllHave(room.peers, family)
      ensures out == Exchange(room, family)
    {
      out := map[];
      var waiting := room.peers.Keys;
      while waiting != {}
        invariant waiting <= room.peers.Keys && out.Keys == room.peers.Keys - waiting
        invariant forall client | client in out :: out[client] == [PeerLine(room, family, client)]
        decreases |waiting|
      {
        var client :| client in waiting;
        OtherIsUnique(room.peers, client);
        var other :| other in room.peers && other != client;
        PeerLineIs(room, family, client, other);
        var role := if client == room.creator then I else R;
        out := out[client := [Peer(room.peers[other].Get(family).value, role, room.sessionNonce)]];
        waiting := waiting - {client};
      }
    }

    /** Goes through the rooms in the order the table yields them and stops at the first one
        that has the client. */
    method FindRoom(client: ClientId, order: seq<RoomId>) returns (found: Option<RoomId>)
      requires Enumerates(order, rooms.Keys)
      ensures found == RoomOf(rooms, client, order)
    {
      found := None;
      var i := 0;
      while i < |order|
        invariant i <= |order| && found.None?
        invariant RoomOf(rooms, client, order) == RoomOf(rooms, client, order[i..])
      {
        assert order[i] in order;
        if client in rooms[order[i]].peers {
          found := Some(order[i]);
          break;
        }
        i := i + 1;
      }
    }

    method RegisterUdpAddr(client: ClientId, address: Address, order: seq<RoomId>) returns (out: Out)
      requires Enumerates(order, rooms.Keys)
      modifies this
      ensures Change(View(), out, {}) == Register(old(View()), client, address, order)
    {
      out := if client in clients then map[client := [RegisteredText(address.Family())]] else map[];
      var found := FindRoom(client, order);
      if found.Some? {
        var pair := PairIfReady(found.value, client, address);
        if pair.Some? {
          out := Merge(out, pair.value);
        }
      }
    }

    /** Stores the endpoint and, once both peers have one of a common family, selects it. */
    method PairIfReady(id: RoomId, client: ClientId, address: Address) returns (pair: Option<Out>)
      requires id in rooms && client in rooms[id].peers
      modifies this`rooms
      ensures
        var room := Located(old(rooms)[id], client, address);
        if ReadyToPair(room) then
          var family := CommonFamily(room.peers).value;
          rooms == old(rooms)[id := room.(selected := Some(family))] && pair == Some(Exchange(room, family))
        else
          rooms == old(rooms)[id := room] && pair == None
    {
      var room := rooms[id];
      room := room.(peers := room.peers[client := room.peers[client].Insert(address)]);
      rooms := rooms[id := room];
      if |room.peers| != 2 || room.selected.Some? || room.failed {
        return None;
      }
      var family := CommonFamily(room.peers);
      if family.None? {
        return None;
      }
      rooms := rooms[id := room.(selected := family)];
      var sent := SendPeers(room, family.value);
      return Some(sent);
    }

    method RetryPeerFamily(id: RoomId, client: ClientId, family: Family) returns (out: Out)
      modifies this
      ensures Change(View(), out, {}) == RetryFamily(old(View()), id, client, family)
    {
      if || id !in rooms
         || |rooms[id].peers| != 2
         || client !in rooms[id].peers
         || rooms[id].failed
         || rooms[id].selected == Some(family)
         || !AllHave(rooms[id].peers, family)
      {
        return map[];
      }
      var room := rooms[id];
      rooms := rooms[id := room.(selected := Some(family), failed := false)];
      out := SendPeers(room, family);
    }

    method RetryPeerConnection(id: RoomId, client: ClientId, now: Instant) returns (out: Out, timers: set<Timer>)
      modifies this
      ensures Change(View(), out, timers) == RetryConnection(old(View()), id, client, now)
    {
      if id !in rooms || client !in rooms[id].peers {
        return map[], {};
      }
      var room := rooms[id];
      if |room.peers| != 2 {
        return map[client := [Text("PEER_NOT_AVAILABLE")]], {};
      }
      if !room.failed {
        return map[], {};
      }
      room := room.(failed := false, selected := None);
      room := room.(peers := map peer | peer in room.peers :: NO_ENDPOINTS);
      rooms := rooms[id := room];
      return Broadcast(room.peers.Keys, Text("REFRESH_UDP")), {Timer(id, room.sessionNonce, now + PEER_MATCH_TIMEOUT)};
    }

    method NotifyP2pDisconnected(id: RoomId, client: ClientId) returns (out: Out)
      modifies this
      ensures Change(View(), out, {}) == NotifyDisconnected(old(View()), id, client)
    {
      if id !in rooms || |rooms[id].peers| != 2 || client !in rooms[id].peers || rooms[id].failed {
        return map[];
      }
      rooms := rooms[id := rooms[id].(failed := true)];
      return Broadcast(rooms[id].peers.Keys, Text("P2P_DISCONNECTED"));
    }

    // --- Housekeeping ------------------------------------------------------------------

    /** `ids` are the expired rooms, in the order the table yields them. */
    method CleanupExpiredRooms(ids: seq<RoomId>, now: Instant) returns (out: Out)
      requires Enumerates(ids, Expired(View(), now))
      modifies this
      ensures Change(View(), out, {}) == Cleanup(old(View()), ids)
    {
      hide Merge, Broadcast, Expired;
      out := map[];
      for i := 0 to |ids|
        invariant forall id :: id in rooms <==> id in old(rooms) && id !in ids[..i]
        invariant forall id | id in rooms :: rooms[id] == old(rooms)[id]
        invariant clients == old(clients) && nextPublicRank == old(nextPublicRank)
        invariant out == ExpiryNotices(old(rooms), ids[..i])
      {
        OneMore(ids, i);
        if ids[i] in rooms {
          out := Merge(out, Broadcast(rooms[ids[i]].peers.Keys, Text("ROOM_EXPIRED")));
          rooms := rooms - {ids[i]};
        }
      }
      assert ids[..|ids|] == ids;
    }

    static lemma OneMore(ids: seq<RoomId>, i: nat)
      requires i < |ids| && forall j, k | 0 <= j < k < |ids| :: ids[j] != ids[k]
      ensures ids[i] in ids && ids[i] !in ids[..i] && ids[..i + 1] == ids[..i] + [ids[i]]
      ensures ids[..i + 1][..i] == ids[..i]
    {
    }

    // --- The public list ---------------------------------------------------------------

    method CollectPublicRooms(order: seq<RoomId>) returns (listed: seq<Entry>)
      requires Enumerates(order, rooms.Keys)
      ensures listed == Entries(View(), order)
    {
      listed := [];
      for i := 0 to |order|
        invariant listed == Entries(View(), order[..i])
      {
        OneMore(order, i);
        var id, room := order[i], rooms[order[i]];
        if room.kind.Public? {
          listed := listed + [Entry(id, room.kind.title, if |room.peers| < 2 then |room.peers| else 2, room.kind.rank)];
        }
      }
      assert order[..|order|] == order;
    }

    /** Collects the public rooms, sorts them and sends one line for each. */
    method SendPublicRooms(order: seq<RoomId>) returns (lines: seq<Line>)
      requires Enumerates(order, rooms.Keys)
      ensures lines == PublicList(View(), order)
    {
      var listed := CollectPublicRooms(order);
      lines := SendList(Sorted(listed));
    }

    static method SendList(listed: seq<Entry>) returns (lines: seq<Line>)
      ensures lines == ListLines(listed)
    {
      hide TitleToken;
      lines := [Text("PUBLIC_LIST_BEGIN")];
      for i := 0 to |listed|
        invariant |lines| == i + 1 && lines[0] == Text("PUBLIC_LIST_BEGIN")
        invariant forall k | 0 <= k < i :: lines[k + 1] == Listed(listed[k].id, listed[k].occupants, TitleToken(listed[k].title))
      {
        lines := lines + [Listed(listed[i].id, listed[i].occupants, TitleToken(listed[i].title))];
      }
      lines := lines + [Text("PUBLIC_LIST_END")];
      assert lines == ListLines(listed);
    }

    // --- One line from a client --------------------------------------------------------

    /** The body of the handler's loop. `current` is the handler's `current_room`. */
    method HandleLine(client: ClientId, current: Option<RoomId>, parts: seq<string>, env: Env)
      returns (next: Option<RoomId>, out: Out, timers: set<Timer>)
      requires current.Some? ==> OrdersHeirs(View(), current.value, client, env.heirs)
      requires Enumerates(env.listing, rooms.Keys)
      modifies this
      ensures Handled(Change(View(), out, timers), next) == Rooms.HandleLine(old(View()), client, current, parts, env)
    {
      next, out, timers := current, map[], {};
      if !env.allowed {
        return current, map[client := [Text("RATE_LIMITED")]], {};
      }
      if parts == [] {
        return current, map[client := [Text("ERROR UNKNOWN_COMMAND")]], {};
      }
      if parts[0] == "PONG" {
        return current, map[], {};
      }
      if IsEntrance(parts[0]) {
        if current.Some? {
          return current, map[client := [Text("ALREADY_IN_ROOM")]], {};
        }
        if !env.roomAllowed {
          return current, map[client := [Text("RATE_LIMITED")]], {};
        }
        next, out, timers := HandleEntrance(client, parts[0], parts[1..], env);
      } else if IsMemberCommand(parts[0]) {
        next, out, timers := HandleMember(client, current, parts[0], parts[1..], env);
      } else {
        out := map[client := [Text("ERROR UNKNOWN_COMMAND")]];
      }
    }

    method HandleEntrance(client: ClientId, command: string, args: seq<string>, env: Env)
      returns (next: Option<RoomId>, out: Out, timers: set<Timer>)
      requires IsEntrance(command)
      modifies this
      ensures Handled(Change(View(), out, timers), next) == Rooms.HandleEntrance(old(View()), client, command, args, env)
    {
      var error: Option<string>;
      next, timers := None, {};
      if command == "CREATE" {
        if args == [] || !IsId(args[0]) {
          return None, map[client := [Text("ERROR INVALID_ROOM_ID")]], {};
        }
        if |args| > 1 {
          return None, map[client := [Text("ERROR INVALID_COMMAND")]], {};
        }
        error, out := CreateRoom(args[0], client, env.nonce, env.now);
      } else if command == "CREATE_PUBLIC" {
        if |args| < 2 {
          return None, map[client := [Text("ERROR INVALID_COMMAND")]], {};
        }
        var title := DecodeTitle(args[1]);
        if title.None? || !IsId(args[0]) || |args| > 2 {
          return None, map[client := [Text("ERROR INVALID_PUBLIC_ROOM")]], {};
        }
        TitleRoundTrip(args[1], title.value);
        error, out := CreatePublicRoom(args[0], title.value, client, env.nonce, env.now);
      } else {
        if args == [] || !IsId(args[0]) || (command == "JOIN_PUBLIC" && |args| > 1) {
          return None, map[client := [Text("ERROR INVALID_ROOM_ID")]], {};
        }
        error, out, timers := JoinRoom(args[0], client, command == "JOIN_PUBLIC", env.now);
      }
      match error {
        case None => next := Some(args[0]);
        case Some(code) => out := map[client := [Text(code)]];
      }
    }

    method HandleMember(client: ClientId, current: Option<RoomId>, command: string, args: seq<string>, env: Env)
      returns (next: Option<RoomId>, out: Out, timers: set<Timer>)
      requires IsMemberCommand(command)
      requires current.Some? ==> OrdersHeirs(View(), current.value, client, env.heirs)
      requires Enumerates(env.listing, rooms.Keys)
      modifies this
      ensures
        Handled(Change(View(), out, timers), next) == Rooms.HandleMember(old(View()), client, current, command, args, env)
    {
      next, out, timers := current, map[], {};
      if (if command == "P2P_RETRY" then args != ["4"] else args != []) {
        out := map[client := [Text("ERROR INVALID_COMMAND")]];
      } else if command == "LIST_PUBLIC" {
        var lines := SendPublicRooms(env.listing);
        out := map[client := lines];
      } else if command == "LEAVE" {
        if current.Some? {
          out := LeaveRoom(current.value, client, env.heirs, env.now);
        }
        next, out := None, Merge(out, map[client := [Text("LEFT")]]);
      } else if current.Some? {
        if command == "P2P_RETRY" {
          out := RetryPeerFamily(current.value, client, V4);
        } else if command == "RETRY_P2P" {
          out, timers := RetryPeerConnection(current.value, client, env.now);
        } else {
          out := NotifyP2pDisconnected(current.value, client);
        }
      }
    }

    /** What the handler does when its loop ends. */
    method Goodbye(client: ClientId, current: Option<RoomId>, env: Env) returns (out: Out)
      requires current.Some? ==> OrdersHeirs(View(), current.value, client, env.heirs)
      modifies this
      ensures Change(View(), out, {}) == Rooms.Goodbye(old(View()), client, current, env)
    {
      out := map[];
      if current.Some? {
        out := LeaveRoom(current.value, client, env.heirs, env.now);
      }
      clients := clients - {client};
    }
  }
}
