/** The rooms of the signaling server: what each operation does to the table and which
    lines it sends (src/bin/server.rs). Every lock-protected block is one operation and
    its lines belong to it.

    Random nonces, clocks and the orders in which hash tables yield their keys are
    arguments. */
module Rooms {
  import opened Prelude
  import opened Protocol

  const ROOM_TTL: int := 10 * 60 * SECOND
  const PEER_MATCH_TIMEOUT: int := 10 * SECOND
  const MAX_PUBLIC_ROOMS: nat := 100

  type ClientId = string
  type RoomId = string
  type Nonce = seq<byte>

  datatype Family = V4 | V6

  datatype Address = Ipv4(number: nat) | Ipv6(number: nat) {
    function Family(): Family {
      if Ipv4? then V4 else V6
    }
  }

  datatype Endpoints = Endpoints(ipv4: Option<Address>, ipv6: Option<Address>) {
    function Insert(address: Address): Endpoints {
      if address.Ipv4? then this.(ipv4 := Some(address)) else this.(ipv6 := Some(address))
    }

    function Get(family: Family): Option<Address> {
      if family == V4 then ipv4 else ipv6
    }

    predicate IsEmpty() {
      ipv4.None? && ipv6.None?
    }
  }

  const NO_ENDPOINTS := Endpoints(None, None)

  datatype Kind = Private | Public(title: string, rank: u64)

  datatype Room = Room(
    creator: ClientId, kind: Kind, sessionNonce: Nonce, createdAt: Instant,
    peers: map<ClientId, Endpoints>, selected: Option<Family>, failed: bool)

  /** `clients` tells which connected clients announced dual-stack support. */
  datatype Server = Server(rooms: map<RoomId, Room>, clients: map<ClientId, bool>, nextRank: u64)

  const EMPTY_SERVER := Server(map[], map[], 0)

  // --- Lines ---------------------------------------------------------------------------

  datatype Role = I | R

  /** Lines with arguments by their arguments; every other line as its text. */
  datatype Line =
    | Created(room: RoomId, nonce: Nonce)
    | PublicCreated(room: RoomId, nonce: Nonce, title: string)
    | Joined(room: RoomId, nonce: Nonce)
    | PublicJoined(room: RoomId, nonce: Nonce, title: string)
    | Peer(endpoint: Address, role: Role, nonce: Nonce)
    | Listed(room: RoomId, occupants: nat, title: string)
    | Text(text: string)

  /** The lines each client is sent, in order. */
  type Out = map<ClientId, seq<Line>>

  function LinesTo(out: Out, client: ClientId): seq<Line> {
    if client in out then out[client] else []
  }

  function Merge(first: Out, second: Out): Out {
    map client | client in first.Keys + second.Keys :: LinesTo(first, client) + LinesTo(second, client)
  }

  function Broadcast(clients: set<ClientId>, line: Line): Out {
    map client | client in clients :: [line]
  }

  /** A match timeout waiting to fire. */
  datatype Timer = Timer(room: RoomId, nonce: Nonce, due: Instant)

  datatype Change = Change(server: Server, out: Out, timers: set<Timer>)

  datatype Attempt = Done(change: Change) | Refused(code: string)

  function Unchanged(s: Server): Change {
    Change(s, map[], {})
  }

  // --- Entering ------------------------------------------------------------------------

  function NewRoom(client: ClientId, kind: Kind, nonce: Nonce, now: Instant): Room {
    Room(client, kind, nonce, now, map[client := NO_ENDPOINTS], None, false)
  }

  function CreateRoom(s: Server, room: RoomId, client: ClientId, nonce: Nonce, now: Instant): Attempt {
    if room in s.rooms then
      Refused("ROOM_EXISTS")
    else
      Done(Change(
        s.(rooms := s.rooms[room := NewRoom(client, Private, nonce, now)]),
        map[client := [Created(room, nonce)]], {}))
  }

  function PublicIds(s: Server): set<RoomId> {
    set room | room in s.rooms && s.rooms[room].kind.Public?
  }

  /** The title as it goes on the wire; the server only keeps titles that have one. */
  function TitleToken(title: string): string {
    match EncodeTitle(title)
    case Some(token) => token
    case None => ""
  }

  function CreatePublicRoom(s: Server, room: RoomId, title: string, client: ClientId, nonce: Nonce, now: Instant): Attempt {
    if room in s.rooms then
      Refused("ROOM_EXISTS")
    else if |PublicIds(s)| >= MAX_PUBLIC_ROOMS then
      Refused("PUBLIC_ROOM_LIMIT")
    else
      var rank := NextId(s.nextRank);
      Done(Change(
        s.(rooms := s.rooms[room := NewRoom(client, Public(title, rank), nonce, now)], nextRank := rank),
        map[client := [PublicCreated(room, nonce, TitleToken(title))]], {}))
  }

  function JoinReply(id: RoomId, room: Room): Line {
    match room.kind
    case Private => Joined(id, room.sessionNonce)
    case Public(title, _) => PublicJoined(id, room.sessionNonce, TitleToken(title))
  }

  function JoinRoom(s: Server, room: RoomId, client: ClientId, public: bool, now: Instant): Attempt {
    if room !in s.rooms || s.rooms[room].kind.Public? != public then
      Refused("ROOM_NOT_FOUND")
    else if |s.rooms[room].peers| >= 2 then
      Refused("ROOM_FULL")
    else
      var was := s.rooms[room];
      Done(Change(
        s.(rooms := s.rooms[room := was.(peers := was.peers[client := NO_ENDPOINTS])]),
        map[client := [JoinReply(room, was)]], {Timer(room, was.sessionNonce, now + PEER_MATCH_TIMEOUT)}))
  }

  // --- Leaving -------------------------------------------------------------------------

  /** `heirs` is the order in which the table yields the peers that stay. */
  ghost predicate OrdersHeirs(s: Server, room: RoomId, client: ClientId, heirs: seq<ClientId>) {
    room in s.rooms ==> Enumerates(heirs, s.rooms[room].peers.Keys - {client})
  }

  predicate Reopens(s: Server, room: RoomId, client: ClientId) {
    room in s.rooms && s.rooms[room].kind.Public? && |s.rooms[room].peers| == 2 && client in s.rooms[room].peers
  }

  function Departed(was: Room, client: ClientId, heirs: seq<ClientId>, rank: Option<u64>, now: Instant): Room {
    was.(
      peers := was.peers - {client},
      selected := None,
      failed := false,
      creator := if heirs != [] && was.creator == client then heirs[0] else was.creator,
      createdAt := if heirs != [] then now else was.createdAt,
      kind := if rank.Some? && was.kind.Public? then was.kind.(rank := rank.value) else was.kind)
  }

  function LeaveRoom(s: Server, room: RoomId, client: ClientId, heirs: seq<ClientId>, now: Instant): Change {
    if room !in s.rooms then
      Unchanged(s)
    else
      var rank := if Reopens(s, room, client) then Some(NextId(s.nextRank)) else None;
      var next := Departed(s.rooms[room], client, heirs, rank, now);
      Change(
        s.(rooms := if next.peers == map[] then s.rooms - {room} else s.rooms[room := next],
           nextRank := if rank.Some? then rank.value else s.nextRank),
        Broadcast(next.peers.Keys, Text("PEER_LEFT")), {})
  }

  // --- Pairing -------------------------------------------------------------------------

  predicate AllHave(peers: map<ClientId, Endpoints>, family: Family) {
    forall client | client in peers :: peers[client].Get(family).Some?
  }

  /** IPv6 before IPv4. */
  function CommonFamily(peers: map<ClientId, Endpoints>): (r: Option<Family>)
    ensures r.Some? ==> AllHave(peers, r.value)
    ensures r.None? ==> !AllHave(peers, V4) && !AllHave(peers, V6)
  {
    if AllHave(peers, V6) then Some(V6) else if AllHave(peers, V4) then Some(V4) else None
  }

  lemma OtherIsUnique(peers: map<ClientId, Endpoints>, client: ClientId)
    requires |peers| == 2 && client in peers
    ensures exists other :: other in peers && other != client
    ensures forall a, b | a in peers && b in peers && a != client && b != client :: a == b
  {
    var rest := peers.Keys - {client};
    assert |rest| == 1;
    var other :| other in rest;
    assert |rest - {other}| == 0;
    forall a | a in peers && a != client ensures a == other {
      assert a in rest;
    }
  }

  /** The other one of two peers. */
  function Other(peers: map<ClientId, Endpoints>, client: ClientId): (other: ClientId)
    requires |peers| == 2 && client in peers
    ensures other in peers && other != client
    ensures peers.Keys == {client, other}
  {
    OtherIsUnique(peers, client);
    var other :| other in peers && other != client;
    other
  }

  function PeerLine(room: Room, family: Family, client: ClientId): Line
    requires |room.peers| == 2 && AllHave(room.peers, family) && client in room.peers
  {
    var other := room.peers[Other(room.peers, client)];
    Peer(other.Get(family).value, if client == room.creator then I else R, room.sessionNonce)
  }

  lemma PeerLineIs(room: Room, family: Family, client: ClientId, other: ClientId)
    requires |room.peers| == 2 && AllHave(room.peers, family)
    requires client in room.peers && other in room.peers && client != other
    ensures PeerLine(room, family, client) ==
            Peer(room.peers[other].Get(family).value, if client == room.creator then I else R, room.sessionNonce)
  {
    OtherIsUnique(room.peers, client);
  }

  /** Each peer is sent the other's endpoint, its own role and the nonce of the room. */
  function Exchange(room: Room, family: Family): Out
    requires |room.peers| == 2 && AllHave(room.peers, family)
  {
    map client | client in room.peers :: [PeerLine(room, family, client)]
  }

  /** The first room in the given order that has the client: the loop breaks there. */
  function RoomOf(rooms: map<RoomId, Room>, client: ClientId, order: seq<RoomId>): (r: Option<RoomId>)
    ensures r.Some? ==> r.value in order && r.value in rooms && client in rooms[r.value].peers
    ensures r.None? ==> forall id | id in order && id in rooms :: client !in rooms[id].peers
  {
    if order == [] then None
    else if order[0] in rooms && client in rooms[order[0]].peers then Some(order[0])
    else RoomOf(rooms, client, order[1..])
  }

  function Located(room: Room, client: ClientId, address: Address): Room
    requires client in room.peers
  {
    room.(peers := room.peers[client := room.peers[client].Insert(address)])
  }

  predicate ReadyToPair(room: Room) {
    |room.peers| == 2 && room.selected.None? && !room.failed && CommonFamily(room.peers).Some?
  }

  function RegisteredText(family: Family): Line {
    Text(if family == V4 then "REGISTERED 4" else "REGISTERED 6")
  }

  /** `register_udp_addr`; `order` is the order in which the table yields the rooms. */
  function Register(s: Server, client: ClientId, address: Address, order: seq<RoomId>): Change {
    var notice: Out := if client in s.clients then map[client := [RegisteredText(address.Family())]] else map[];
    match RoomOf(s.rooms, client, order)
    case None => Change(s, notice, {})
    case Some(id) =>
      var room := Located(s.rooms[id], client, address);
      if ReadyToPair(room) then
        var family := CommonFamily(room.peers).value;
        Change(s.(rooms := s.rooms[id := room.(selected := Some(family))]), Merge(notice, Exchange(room, family)), {})
      else
        Change(s.(rooms := s.rooms[id := room]), notice, {})
  }

  predicate CanRetry(room: Room, client: ClientId, family: Family) {
    && |room.peers| == 2
    && client in room.peers
    && !room.failed
    && room.selected != Some(family)
    && AllHave(room.peers, family)
  }

  /** `retry_peer_family`. */
  function RetryFamily(s: Server, id: RoomId, client: ClientId, family: Family): Change {
    if id in s.rooms && CanRetry(s.rooms[id], client, family) then
      var room := s.rooms[id];
      Change(s.(rooms := s.rooms[id := room.(selected := Some(family), failed := false)]), Exchange(room, family), {})
    else
      Unchanged(s)
  }

  function Refreshed(room: Room): Room {
    room.(failed := false, selected := None, peers := map client | client in room.peers :: NO_ENDPOINTS)
  }

  /** `retry_peer_connection`. */
  function RetryConnection(s: Server, id: RoomId, client: ClientId, now: Instant): Change {
    if id !in s.rooms || client !in s.rooms[id].peers then
      Unchanged(s)
    else if |s.rooms[id].peers| != 2 then
      Change(s, map[client := [Text("PEER_NOT_AVAILABLE")]], {})
    else if !s.rooms[id].failed then
      Unchanged(s)
    else
      var next := Refreshed(s.rooms[id]);
      Change(s.(rooms := s.rooms[id := next]), Broadcast(next.peers.Keys, Text("REFRESH_UDP")),
             {Timer(id, next.sessionNonce, now + PEER_MATCH_TIMEOUT)})
  }

  /** `notify_p2p_disconnected`. */
  function NotifyDisconnected(s: Server, id: RoomId, client: ClientId): Change {
    if id in s.rooms && |s.rooms[id].peers| == 2 && client in s.rooms[id].peers && !s.rooms[id].failed then
      var room := s.rooms[id];
      Change(s.(rooms := s.rooms[id := room.(failed := true)]), Broadcast(room.peers.Keys, Text("P2P_DISCONNECTED")), {})
    else
      Unchanged(s)
  }

  /** The match timeout has something to complain about. */
  predicate Unmatched(s: Server, timer: Timer) {
    && timer.room in s.rooms
    && var room := s.rooms[timer.room];
       && room.sessionNonce == timer.nonce
       && |room.peers| == 2
       && room.selected.None?
       && forall client | client in room.peers :: !room.peers[client].IsEmpty()
  }

  function MatchTimeout(s: Server, timer: Timer): Out {
    if Unmatched(s, timer) then
      var told := set client | client in s.rooms[timer.room].peers && client in s.clients && s.clients[client];
      Broadcast(told, Text("P2P_UNAVAILABLE ADDRESS_FAMILY"))
    else
      map[]
  }

  // --- Housekeeping --------------------------------------------------------------------

  function Expired(s: Server, now: Instant): set<RoomId> {
    set id | id in s.rooms && |s.rooms[id].peers| < 2 && Since(now, s.rooms[id].createdAt) >= ROOM_TTL
  }

  function ExpiryNotices(rooms: map<RoomId, Room>, ids: seq<RoomId>): Out {
    if ids == [] then
      map[]
    else
      var before, last := ExpiryNotices(rooms, ids[..|ids| - 1]), ids[|ids| - 1];
      if last in rooms then Merge(before, Broadcast(rooms[last].peers.Keys, Text("ROOM_EXPIRED"))) else before
  }

  /** Removes the rooms in `ids`, the expired ones in the order the table yields them. */
  function Cleanup(s: Server, ids: seq<RoomId>): Change {
    Change(s.(rooms := s.rooms - (set id | id in ids)), ExpiryNotices(s.rooms, ids), {})
  }

  function Probe(s: Server, client: ClientId, dualStack: bool): Server {
    if client in s.clients then s.(clients := s.clients[client := s.clients[client] || dualStack]) else s
  }

  function Connect(s: Server, client: ClientId): Server {
    s.(clients := s.clients[client := false])
  }

  // --- The public list -----------------------------------------------------------------

  datatype Entry = Entry(id: RoomId, title: string, occupants: nat, rank: u64) {
    predicate Full() {
      occupants >= 2
    }

    /** Open rooms first, then the newer rank. */
    predicate Before(other: Entry) {
      if Full() != other.Full() then !Full() else rank >= other.rank
    }
  }

  function EntryOf(id: RoomId, room: Room): Entry
    requires room.kind.Public?
  {
    Entry(id, room.kind.title, if |room.peers| < 2 then |room.peers| else 2, room.kind.rank)
  }

  function Entries(s: Server, order: seq<RoomId>): seq<Entry> {
    if order == [] then
      []
    else
      var front := Entries(s, order[..|order| - 1]);
      var id := order[|order| - 1];
      if id in s.rooms && s.rooms[id].kind.Public? then front + [EntryOf(id, s.rooms[id])] else front
  }

  function Insert(e: Entry, sorted: seq<Entry>): seq<Entry> {
    if sorted == [] then [e]
    else if e.Before(sorted[0]) && !sorted[0].Before(e) then [e] + sorted
    else [sorted[0]] + Insert(e, sorted[1..])
  }

  /** A stable sort. */
  function Sorted(entries: seq<Entry>): seq<Entry> {
    if entries == [] then [] else Insert(entries[|entries| - 1], Sorted(entries[..|entries| - 1]))
  }

  function ListLines(entries: seq<Entry>): seq<Line> {
    [Text("PUBLIC_LIST_BEGIN")] +
    seq(|entries|, i requires 0 <= i < |entries| => Listed(entries[i].id, entries[i].occupants, TitleToken(entries[i].title))) +
    [Text("PUBLIC_LIST_END")]
  }

  /** `send_public_rooms`; `order` is the order in which the table yields the rooms. */
  function PublicList(s: Server, order: seq<RoomId>): seq<Line> {
    ListLines(Sorted(Entries(s, order)))
  }

  // --- One line from a client ----------------------------------------------------------

  /** What a handler run takes from its surroundings: the answers of the rate limiter, a
      random nonce, the time, and the orders of the tables. */
  datatype Env = Env(
    allowed: bool, roomAllowed: bool, nonce: Nonce, now: Instant,
    heirs: seq<ClientId>, listing: seq<RoomId>)

  /** `current` is the handler's `current_room`. */
  datatype Handled = Handled(change: Change, current: Option<RoomId>)

  predicate IsId(token: string) {
    DecodedHex(token, 16).Some?
  }

  function Reply(s: Server, client: ClientId, current: Option<RoomId>, text: string): Handled {
    Handled(Change(s, map[client := [Text(text)]], {}), current)
  }

  function Enter(s: Server, client: ClientId, room: RoomId, attempt: Attempt): Handled {
    match attempt
    case Done(change) => Handled(change, Some(room))
    case Refused(code) => Reply(s, client, None, code)
  }

  function HandleCreate(s: Server, client: ClientId, args: seq<string>, env: Env): Handled {
    if args == [] || !IsId(args[0]) then Reply(s, client, None, "ERROR INVALID_ROOM_ID")
    else if |args| > 1 then Reply(s, client, None, "ERROR INVALID_COMMAND")
    else Enter(s, client, args[0], CreateRoom(s, args[0], client, env.nonce, env.now))
  }

  function HandleCreatePublic(s: Server, client: ClientId, args: seq<string>, env: Env): Handled {
    if |args| < 2 then
      Reply(s, client, None, "ERROR INVALID_COMMAND")
    else
      match DecodeTitle(args[1])
      case None => Reply(s, client, None, "ERROR INVALID_PUBLIC_ROOM")
      case Some(title) =>
        if !IsId(args[0]) || |args| > 2 then Reply(s, client, None, "ERROR INVALID_PUBLIC_ROOM")
        else Enter(s, client, args[0], CreatePublicRoom(s, args[0], title, client, env.nonce, env.now))
  }

  /** JOIN ignores further words, JOIN_PUBLIC does not. */
  function HandleJoin(s: Server, client: ClientId, args: seq<string>, public: bool, env: Env): Handled {
    if args == [] || !IsId(args[0]) || (public && |args| > 1) then
      Reply(s, client, None, "ERROR INVALID_ROOM_ID")
    else
      Enter(s, client, args[0], JoinRoom(s, args[0], client, public, env.now))
  }

  predicate IsEntrance(command: string) {
    command in {"CREATE", "CREATE_PUBLIC", "JOIN", "JOIN_PUBLIC"}
  }

  function HandleEntrance(s: Server, client: ClientId, command: string, args: seq<string>, env: Env): Handled
    requires IsEntrance(command)
  {
    if command == "CREATE" then HandleCreate(s, client, args, env)
    else if command == "CREATE_PUBLIC" then HandleCreatePublic(s, client, args, env)
    else HandleJoin(s, client, args, command == "JOIN_PUBLIC", env)
  }

  /** The commands about the room the client is in. */
  function RoomCommand(s: Server, client: ClientId, room: RoomId, command: string, now: Instant): Change {
    if command == "P2P_RETRY" then RetryFamily(s, room, client, V4)
    else if command == "RETRY_P2P" then RetryConnection(s, room, client, now)
    else NotifyDisconnected(s, room, client)
  }

  function HandleLeave(s: Server, client: ClientId, current: Option<RoomId>, env: Env): Handled {
    var left := if current.Some? then LeaveRoom(s, current.value, client, env.heirs, env.now) else Unchanged(s);
    Handled(left.(out := Merge(left.out, map[client := [Text("LEFT")]])), None)
  }

  function HandleMember(s: Server, client: ClientId, current: Option<RoomId>, command: string, args: seq<string>, env: Env): Handled {
    if (if command == "P2P_RETRY" then args != ["4"] else args != []) then
      Reply(s, client, current, "ERROR INVALID_COMMAND")
    else if command == "LIST_PUBLIC" then
      Handled(Change(s, map[client := PublicList(s, env.listing)], {}), current)
    else if command == "LEAVE" then
      HandleLeave(s, client, current, env)
    else
      Handled(if current.Some? then RoomCommand(s, client, current.value, command, env.now) else Unchanged(s), current)
  }

  predicate IsMemberCommand(command: string) {
    command in {"LIST_PUBLIC", "P2P_RETRY", "RETRY_P2P", "P2P_FAILED", "LEAVE"}
  }

  /** One line of a client's handler; `parts` are its words. */
  function HandleLine(s: Server, client: ClientId, current: Option<RoomId>, parts: seq<string>, env: Env): Handled {
    if !env.allowed then
      Reply(s, client, current, "RATE_LIMITED")
    else if parts == [] then
      Reply(s, client, current, "ERROR UNKNOWN_COMMAND")
    else if parts[0] == "PONG" then
      Handled(Unchanged(s), current)
    else if IsEntrance(parts[0]) then
      if current.Some? then Reply(s, client, current, "ALREADY_IN_ROOM")
      else if !env.roomAllowed then Reply(s, client, current, "RATE_LIMITED")
      else HandleEntrance(s, client, parts[0], parts[1..], env)
    else if IsMemberCommand(parts[0]) then
      HandleMember(s, client, current, parts[0], parts[1..], env)
    else
      Reply(s, client, current, "ERROR UNKNOWN_COMMAND")
  }

  /** What the handler's own clean-up does when its loop ends. */
  function Goodbye(s: Server, client: ClientId, current: Option<RoomId>, env: Env): Change {
    var left := if current.Some? then LeaveRoom(s, current.value, client, env.heirs, env.now) else Unchanged(s);
    left.(server := left.server.(clients := left.server.clients - {client}))
  }
}
