/** One end of a peer connection as a value, and what each of its handlers does to it:
    the next value, the packets sent, the events raised and the error returned, if any.

    Noise is symbolic. A session is named by the room context and both ephemeral keys; a
    sealed plaintext opens only under its own session, direction and sequence. */
module PeerModel {
  import opened Prelude
  import opened Protocol
  import opened Replay
  import opened Plaintext

  const MAX_PENDING_MESSAGES: nat := 64
  const MAX_HISTORY_DEDUP: nat := 512
  const PACKETS_PER_SECOND: nat := 100
  const PEER_IPV4_RETRY_DELAY: int := 3 * SECOND
  const PEER_CONNECT_TIMEOUT: int := 10 * SECOND

  // --- Symbolic Noise ------------------------------------------------------------------

  datatype Security = Private(secret: seq<byte>) | Public

  datatype Context = Context(security: Security, roomId: seq<byte>, sessionNonce: seq<byte>)

  type Key = nat

  datatype Session = Session(context: Context, initiatorKey: Key, responderKey: Key)

  datatype Hello = Hello(context: Context, key: Key) | BadHello

  datatype Reply = Reply(session: Session) | BadReply

  datatype Sealed =
    | Sealed(session: Session, fromInitiator: bool, sequence: u64, plaintext: seq<byte>)
    | Forgery

  /** The first message authenticates the room only when there is a pre-shared secret. */
  function ReadHello(context: Context, hello: Hello): Option<Key> {
    match hello
    case BadHello => None
    case Hello(theirs, key) => if context.security.Public? || theirs == context then Some(key) else None
  }

  /** The second message authenticates the whole transcript. */
  function ReadReply(context: Context, key: Key, reply: Reply): Option<Session> {
    match reply
    case BadReply => None
    case Reply(session) => if session.context == context && session.initiatorKey == key then Some(session) else None
  }

  function Open(session: Session, fromInitiator: bool, sequence: u64, body: Sealed): Option<seq<byte>> {
    match body
    case Forgery => None
    case Sealed(s, from, n, plaintext) =>
      if s == session && from == fromInitiator && n == sequence then Some(plaintext) else None
  }

  /** `Foreign` has fewer than five bytes or another magic number; `Malformed` has the magic
      number and an unknown kind, or is a transport packet of fewer than 13 bytes. */
  datatype Packet =
    | Foreign
    | Malformed
    | Punch
    | Init(hello: Hello)
    | Response(reply: Reply)
    | Transport(sequence: u64, body: Sealed)

  // --- The peer ------------------------------------------------------------------------

  datatype PendingMessage = PendingMessage(text: string, retries: nat, nextRetry: Instant)

  /** What `SecurePeer::new` fixes. */
  datatype Identity = Identity(
    initiator: bool, context: Context, key: Key, ipv6: bool, localNickname: string, startedAt: Instant)

  /** How far the connection has got. */
  datatype Link = Link(
    handshake: bool, transport: Option<Session>,
    initialPacket: Option<Packet>, responsePacket: Option<Packet>,
    readyReceived: bool, readyAcked: bool, connected: bool,
    safetyNumber: Option<Session>, peerNickname: Option<string>)

  datatype Clocks = Clocks(
    lastHandshakeSend: Instant, lastReadySend: Instant,
    lastReceived: Instant, lastHeartbeatSend: Instant,
    rateStarted: Instant, packetsThisSecond: nat)

  datatype Outbox = Outbox(pending: map<u64, PendingMessage>, nextMessageId: u64)

  datatype Inbox = Inbox(receivedIds: set<u64>, receivedOrder: seq<u64>)

  datatype Peer = Peer(
    id: Identity, link: Link, clocks: Clocks, outbox: Outbox, inbox: Inbox,
    sendSequence: u64, replay: Window, lastIpv4Retry: Option<Instant>)

  datatype NetworkError = PeerAuthenticationFailed | MessageTooLong | NicknameInvalid | RateLimited | NotConnected

  /** `MessageReceived` also names the id under which the text arrived, which the source
      does not report; the safety number is the transcript it is derived from. */
  datatype Event =
    | PeerConnected(nickname: string, safetyNumber: Option<Session>)
    | MessagePending(id: u64, text: string)
    | MessageDelivered(id: u64)
    | MessageFailed(id: u64)
    | MessageReceived(id: u64, text: string)
    | Refused(reason: NetworkError)

  datatype Effect = Effect(peer: Peer, sent: seq<Packet>, events: seq<Event>, error: Option<NetworkError>) {
    /** This effect followed by one computed from its peer. */
    function Then(next: Effect): Effect {
      Effect(next.peer, sent + next.sent, events + next.events, next.error)
    }
  }

  function Quiet(p: Peer): Effect {
    Effect(p, [], [], None)
  }

  function Fail(p: Peer, error: NetworkError): Effect {
    Effect(p, [], [], Some(error))
  }

  function NewPeer(context: Context, initiator: bool, key: Key, ipv6: bool, nickname: string, now: Instant): Peer {
    Peer(
      Identity(initiator, context, key, ipv6, nickname, now),
      Link(true, None, if initiator then Some(Init(Hello(context, key))) else None, None,
           false, false, false, None, None),
      Clocks(now - SECOND, now - SECOND, now, now, now, 0),
      Outbox(map[], 1),
      Inbox({}, []),
      0, EMPTY, None)
  }

  // --- Sending -------------------------------------------------------------------------

  const TRANSPORT_OVERHEAD: nat := 13 + 16

  /** Encrypts under the next sequence; the counter stops at its maximum. */
  function Seal(p: Peer, plaintext: seq<byte>): Effect {
    match p.link.transport
    case None => Fail(p, PeerAuthenticationFailed)
    case Some(session) =>
      if p.sendSequence == MAX_U64 then
        Fail(p, PeerAuthenticationFailed)
      else
        var next := p.(sendSequence := p.sendSequence + 1);
        if |plaintext| + TRANSPORT_OVERHEAD > MAX_DATAGRAM then
          Fail(next, MessageTooLong)
        else
          Effect(next, [Transport(p.sendSequence, Sealed(session, p.id.initiator, p.sendSequence, plaintext))], [], None)
  }

  function SendReady(p: Peer, now: Instant): Effect {
    var e := Seal(p, Encode(Ready(p.id.localNickname)));
    if e.error.Some? then e else e.(peer := e.peer.(clocks := e.peer.clocks.(lastReadySend := now)))
  }

  function SendMessage(p: Peer, text: string, now: Instant): Effect {
    if !IsMessageText(text) then
      Effect(p, [], [Refused(MessageTooLong)], None)
    else if !p.link.connected then
      Effect(p, [], [Refused(NotConnected)], None)
    else if |p.outbox.pending| >= MAX_PENDING_MESSAGES then
      Effect(p, [], [Refused(RateLimited)], None)
    else
      var id := p.outbox.nextMessageId;
      var e := Seal(p.(outbox := p.outbox.(nextMessageId := NextId(id))), Encode(Message(id, text)));
      if e.error.Some? then
        e
      else
        var entry := PendingMessage(text, 0, now + 500 * MILLISECOND);
        Effect(e.peer.(outbox := e.peer.outbox.(pending := e.peer.outbox.pending[id := entry])), e.sent, [MessagePending(id, text)], None)
  }

  // --- Receiving -----------------------------------------------------------------------

  /** At most 100 packets are looked at in each second that starts with one. */
  function AllowPacket(p: Peer, now: Instant): (Peer, bool) {
    var c := if Since(now, p.clocks.rateStarted) >= SECOND then p.clocks.(rateStarted := now, packetsThisSecond := 0) else p.clocks;
    if c.packetsThisSecond >= PACKETS_PER_SECOND then
      (p.(clocks := c), false)
    else
      (p.(clocks := c.(packetsThisSecond := c.packetsThisSecond + 1)), true)
  }

  /** The plaintext of a transport packet, when it is fresh and opens under our session. */
  function Opened(p: Peer, sequence: u64, body: Sealed): Option<seq<byte>>
    requires p.link.transport.Some?
  {
    if WouldAccept(p.replay, sequence) then Open(p.link.transport.value, !p.id.initiator, sequence, body) else None
  }

  function MaybeConnect(p: Peer): Effect {
    if !p.link.connected && p.link.readyReceived && p.link.readyAcked && p.link.peerNickname.Some? then
      Effect(p.(link := p.link.(connected := true)), [], [PeerConnected(p.link.peerNickname.value, p.link.safetyNumber)], None)
    else
      Quiet(p)
  }

  function Remember(inbox: Inbox, id: u64): Inbox {
    var ids, order := inbox.receivedIds + {id}, inbox.receivedOrder + [id];
    if |order| > MAX_HISTORY_DEDUP then Inbox(ids - {order[0]}, order[1..]) else Inbox(ids, order)
  }

  /** Delivers a message unless its id is among the last 512 delivered. */
  function Deliver(p: Peer, id: u64, text: string): Effect {
    if id in p.inbox.receivedIds then
      Quiet(p)
    else
      Effect(p.(inbox := Remember(p.inbox, id)), [], [MessageReceived(id, text)], None)
  }

  function HandlePlain(p: Peer, plain: Plain): Effect {
    match plain
    case Ready(nickname) =>
      var e := Seal(p.(link := p.link.(peerNickname := Some(nickname), readyReceived := true)), Encode(ReadyAck));
      if e.error.Some? then e else e.Then(MaybeConnect(e.peer))
    case ReadyAck =>
      MaybeConnect(p.(link := p.link.(readyAcked := true)))
    case Message(id, text) =>
      var e := Seal(p, Encode(MessageAck(id)));
      if e.error.Some? then e else e.Then(Deliver(e.peer, id, text))
    case MessageAck(id) =>
      if id in p.outbox.pending then
        Effect(p.(outbox := p.outbox.(pending := p.outbox.pending - {id})), [], [MessageDelivered(id)], None)
      else
        Quiet(p)
    case Heartbeat =>
      Quiet(p)
  }

  function HandlePlaintext(p: Peer, plaintext: seq<byte>): Effect {
    match Parse(plaintext)
    case None => Fail(p, PeerAuthenticationFailed)
    case Some(plain) => HandlePlain(p, plain)
  }

  /** The handshake is used up and its session becomes the transport. */
  function Adopted(p: Peer, session: Session, response: Option<Packet>): Peer {
    p.(link := p.link.(
      handshake := false,
      transport := Some(session),
      responsePacket := response,
      safetyNumber := if p.id.context.security.Public? then Some(session) else p.link.safetyNumber))
  }

  /** Answers the first message; the answer is kept for later copies of it. */
  function AcceptHello(p: Peer, key: Key, now: Instant): Effect {
    var session := Session(p.id.context, key, p.id.key);
    var response := Response(Reply(session));
    var q := Adopted(p, session, Some(response));
    Effect(q, [response], [], None).Then(SendReady(q, now))
  }

  function HandleInit(p: Peer, hello: Hello, now: Instant): Effect {
    if p.link.responsePacket.Some? then
      Effect(p, [p.link.responsePacket.value], [], None)
    else if !p.link.handshake then
      Fail(p, PeerAuthenticationFailed)
    else
      match ReadHello(p.id.context, hello)
      case None => Fail(p.(link := p.link.(handshake := false)), PeerAuthenticationFailed)
      case Some(key) => AcceptHello(p, key, now)
  }

  function HandleResponse(p: Peer, reply: Reply, now: Instant): Effect {
    if !p.link.handshake then
      Fail(p, PeerAuthenticationFailed)
    else
      match ReadReply(p.id.context, p.id.key, reply)
      case None => Fail(p.(link := p.link.(handshake := false)), PeerAuthenticationFailed)
      case Some(session) => SendReady(Adopted(p, session, p.link.responsePacket), now)
  }

  function HandleTransport(p: Peer, sequence: u64, body: Sealed): Effect
    requires p.link.transport.Some?
  {
    match Opened(p, sequence, body)
    case None => Quiet(p)
    case Some(plaintext) => HandlePlaintext(p.(replay := Record(p.replay, sequence)), plaintext)
  }

  function HandlePacket(p: Peer, packet: Packet, now: Instant): Effect {
    if packet.Foreign? then
      Quiet(p)
    else
      var q := p.(clocks := p.clocks.(lastReceived := now));
      match packet
      case Punch =>
        if q.link.initialPacket.Some? then Effect(q, [q.link.initialPacket.value], [], None) else Quiet(q)
      case Init(hello) =>
        if !q.id.initiator then HandleInit(q, hello, now) else Quiet(q)
      case Response(reply) =>
        if q.id.initiator && q.link.transport.None? then HandleResponse(q, reply, now) else Quiet(q)
      case Transport(sequence, body) =>
        if q.link.transport.Some? then HandleTransport(q, sequence, body) else Quiet(q)
      case _ =>
        Quiet(q)
  }

  /** A datagram from the peer's address. */
  function Receive(p: Peer, packet: Packet, now: Instant): Effect {
    var (q, allowed) := AllowPacket(p, now);
    if allowed then HandlePacket(q, packet, now) else Quiet(q)
  }

  // --- Ticking -------------------------------------------------------------------------

  datatype TickAction = Continue | RetryIpv4 | HandshakeTimedOut | ConnectionLost

  datatype TickResult = TickResult(effect: Effect, action: TickAction)

  function ConnectionAction(p: Peer, now: Instant): (Peer, TickAction) {
    if p.link.connected then
      (p, Continue)
    else
      var elapsed := Since(now, p.id.startedAt);
      if elapsed >= PEER_CONNECT_TIMEOUT then
        (p, HandshakeTimedOut)
      else if && p.id.ipv6
              && elapsed >= PEER_IPV4_RETRY_DELAY
              && (p.lastIpv4Retry.None? || Since(now, p.lastIpv4Retry.value) >= SECOND)
      then
        (p.(lastIpv4Retry := Some(now)), RetryIpv4)
      else
        (p, Continue)
  }

  /** Repeats the handshake packet, or the READY packet once there is a transport. */
  function Handshake(p: Peer, now: Instant): Effect {
    if p.link.transport.None? && Since(now, p.clocks.lastHandshakeSend) >= 250 * MILLISECOND then
      var packet := if p.link.initialPacket.Some? then p.link.initialPacket.value else Punch;
      Effect(p.(clocks := p.clocks.(lastHandshakeSend := now)), [packet], [], None)
    else if p.link.transport.Some? && !p.link.connected && Since(now, p.clocks.lastReadySend) >= 500 * MILLISECOND then
      SendReady(p, now)
    else
      Quiet(p)
  }

  function SendHeartbeat(p: Peer, now: Instant): Effect {
    if p.link.connected && Since(now, p.clocks.lastHeartbeatSend) >= 30 * SECOND then
      var e := Seal(p, Encode(Heartbeat));
      if e.error.Some? then e else e.(peer := e.peer.(clocks := e.peer.clocks.(lastHeartbeatSend := now)))
    else
      Quiet(p)
  }

  function DueIds(p: Peer, now: Instant): set<u64> {
    set id | id in p.outbox.pending && now >= p.outbox.pending[id].nextRetry
  }

  /** The wait after the given retransmission. */
  function RetryDelay(retries: nat): int {
    if retries <= 1 then 1 * SECOND else if retries == 2 then 2 * SECOND else 4 * SECOND
  }

  function RetryOne(p: Peer, id: u64, now: Instant): Effect {
    if id !in p.outbox.pending then
      Quiet(p)
    else
      var entry := p.outbox.pending[id];
      var q := p.(outbox := p.outbox.(pending := p.outbox.pending - {id}));
      if entry.retries >= 4 then
        Effect(q, [], [MessageFailed(id)], None)
      else
        var e := Seal(q, Encode(Message(id, entry.text)));
        if e.error.Some? then
          e
        else
          var retries := entry.retries + 1;
          var again := PendingMessage(entry.text, retries, now + RetryDelay(retries));
          e.(peer := e.peer.(outbox := e.peer.outbox.(pending := e.peer.outbox.pending[id := again])))
  }

  /** The due ids in the order the table yields them; the first error ends the tick. */
  function RetryAll(p: Peer, due: seq<u64>, now: Instant): Effect {
    if due == [] then
      Quiet(p)
    else
      var e := RetryAll(p, due[..|due| - 1], now);
      if e.error.Some? then e else e.Then(RetryOne(e.peer, due[|due| - 1], now))
  }

  /** Past the connection deadline checks. */
  function Maintain(p: Peer, due: seq<u64>, now: Instant): TickResult {
    var e := Handshake(p, now);
    if e.error.Some? then
      TickResult(e, Continue)
    else if e.peer.link.connected && Since(now, e.peer.clocks.lastReceived) > 90 * SECOND then
      TickResult(e, ConnectionLost)
    else
      var f := e.Then(SendHeartbeat(e.peer, now));
      if f.error.Some? then
        TickResult(f, Continue)
      else
        TickResult(f.Then(RetryAll(f.peer, due, now)), Continue)
  }

  function Tick(p: Peer, due: seq<u64>, now: Instant): TickResult {
    var (q, action) := ConnectionAction(p, now);
    if action != Continue then TickResult(Quiet(q), action) else Maintain(q, due, now)
  }

  // --- Giving up -----------------------------------------------------------------------

  function Failures(order: seq<u64>): seq<Event> {
    seq(|order|, i requires 0 <= i < |order| => MessageFailed(order[i]))
  }

  /** Reports every pending message as failed and forgets it. */
  function FailPending(p: Peer, order: seq<u64>): Effect {
    Effect(p.(outbox := p.outbox.(pending := map[])), [], Failures(order), None)
  }
}
