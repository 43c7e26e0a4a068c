/** What every reachable pair of peers satisfies: what each side keeps by itself, and what
    each side may conclude about the other. */
module ChannelInvariant {
  import opened Prelude
  import opened Protocol
  import opened Replay
  import opened Plaintext
  import opened PeerModel
  import opened Channel

  // --- One side: handshake and connection ----------------------------------------------

  ghost predicate Handshaked(p: Peer) {
    && IsNickname(p.id.localNickname)
    && (p.link.handshake <==> p.link.transport.None?)
    && p.link.initialPacket == (if p.id.initiator then Some(Init(Hello(p.id.context, p.id.key))) else None)
    && p.link.responsePacket ==
       (if !p.id.initiator && p.link.transport.Some? then Some(Response(Reply(p.link.transport.value))) else None)
    && p.link.safetyNumber == (if p.id.context.security.Public? then p.link.transport else None)
    && (p.link.transport.None? ==> p.sendSequence == 0 && !p.link.readyReceived && !p.link.readyAcked)
    && (p.link.transport.Some? ==> p.sendSequence > 0)
    && (p.link.connected ==> p.link.readyReceived && p.link.readyAcked)
    && (p.link.readyReceived <==> p.link.peerNickname.Some?)
  }

  /** At most one `PeerConnected`, raised exactly when the peer is connected. */
  ghost predicate Connects(s: Side) {
    && (forall i | 0 <= i < |s.events| && s.events[i].PeerConnected? ::
          && s.peer.link.connected
          && s.events[i].safetyNumber == s.peer.link.safetyNumber)
    && (forall i, j | 0 <= i < j < |s.events| && s.events[i].PeerConnected? :: !s.events[j].PeerConnected?)
    && (s.peer.link.connected ==> exists i :: 0 <= i < |s.events| && s.events[i].PeerConnected?)
    && (s.status != Broken && s.peer.link.readyReceived && s.peer.link.readyAcked ==> s.peer.link.connected)
  }

  // --- One side: what it has put on the wire -------------------------------------------

  ghost predicate HasReceived(events: seq<Event>, id: u64) {
    exists text :: MessageReceived(id, text) in events
  }

  /** The sender had a reason to send this plaintext. */
  ghost predicate Justified(s: Side, plain: Plain) {
    match plain
    case Ready(nickname) => nickname == s.peer.id.localNickname
    case ReadyAck => s.peer.link.readyReceived
    case Message(id, text) => MessagePending(id, text) in s.events
    case MessageAck(id) => HasReceived(s.events, id)
    case Heartbeat => s.peer.link.connected
  }

  /** A packet this side may have sent. */
  ghost predicate Own(s: Side, packet: Packet) {
    match packet
    case Punch => true
    case Init(_) => s.peer.link.initialPacket == Some(packet)
    case Response(_) => s.peer.link.responsePacket == Some(packet)
    case Transport(sequence, body) =>
      && body.Sealed?
      && s.peer.link.transport == Some(body.session)
      && body.fromInitiator == s.peer.id.initiator
      && body.sequence == sequence < s.peer.sendSequence
      && Parse(body.plaintext).Some?
      && Justified(s, Parse(body.plaintext).value)
    case _ => false
  }

  /** Transport packets leave with strictly rising sequences. */
  ghost predicate Ascending(sent: seq<Packet>) {
    forall i, j | 0 <= i < j < |sent| && sent[i].Transport? && sent[j].Transport? ::
      sent[i].sequence < sent[j].sequence
  }

  ghost predicate Traffic(s: Side) {
    && (forall packet | packet in s.sent :: Own(s, packet))
    && Ascending(s.sent)
  }

  // --- One side: what it has received --------------------------------------------------

  /** The ids of the messages delivered to the user, in order. */
  function ReceivedIds(events: seq<Event>): seq<u64> {
    if events == [] then
      []
    else
      var front := ReceivedIds(events[..|events| - 1]);
      var last := events[|events| - 1];
      if last.MessageReceived? then front + [last.id] else front
  }

  /** Equal entries are more than 512 places apart. */
  ghost predicate Spaced(ids: seq<u64>) {
    forall i, j | 0 <= i < j < |ids| && ids[i] == ids[j] :: j - i > MAX_HISTORY_DEDUP
  }

  function Latest(ids: seq<u64>): seq<u64> {
    if |ids| <= MAX_HISTORY_DEDUP then ids else ids[|ids| - MAX_HISTORY_DEDUP..]
  }

  /** The inbox holds the last 512 ids delivered, or all of them while there are fewer. */
  ghost predicate Remembers(inbox: Inbox, ids: seq<u64>) {
    inbox.receivedOrder == Latest(ids) && forall id :: id in inbox.receivedIds <==> id in Latest(ids)
  }

  ghost predicate Receipts(s: Side) {
    var ids := ReceivedIds(s.events);
    Remembers(s.peer.inbox, ids) && Spaced(ids)
  }

  // --- One side: the fate of its messages ----------------------------------------------

  predicate Carries(packet: Packet, id: u64) {
    && packet.Transport?
    && packet.body.Sealed?
    && match Parse(packet.body.plaintext)
       case Some(Message(n, _)) => n == id
       case _ => false
  }

  /** How many packets were sent for a message. */
  function Transmissions(sent: seq<Packet>, id: u64): nat {
    if sent == [] then
      0
    else
      Transmissions(sent[..|sent| - 1], id) + (if Carries(sent[|sent| - 1], id) then 1 else 0)
  }

  predicate IsFinal(e: Event) {
    e.MessageDelivered? || e.MessageFailed?
  }

  ghost predicate Settled(events: seq<Event>, id: u64) {
    MessageDelivered(id) in events || MessageFailed(id) in events
  }

  /** No message is announced twice and ids rise. */
  ghost predicate AnnouncedInOrder(events: seq<Event>) {
    forall i, j | 0 <= i < j < |events| && events[i].MessagePending? && events[j].MessagePending? ::
      events[i].id < events[j].id
  }

  /** No message is settled twice. */
  ghost predicate SettledOnce(events: seq<Event>) {
    forall i, j | 0 <= i < j < |events| && IsFinal(events[i]) && IsFinal(events[j]) :: events[i].id != events[j].id
  }

  /** No retransmission, or failure, is due earlier than this long after the first send. */
  function EarliestDue(retries: nat): int {
    if retries == 0 then 500 * MILLISECOND
    else if retries == 1 then 1500 * MILLISECOND
    else if retries == 2 then 3500 * MILLISECOND
    else if retries == 3 then 7500 * MILLISECOND
    else 11500 * MILLISECOND
  }

  ghost predicate PendingEntry(s: Side, id: u64) {
    && id in s.peer.outbox.pending
    && 1 <= id < s.peer.outbox.nextMessageId
    && var entry := s.peer.outbox.pending[id];
       && entry.retries <= 4
       && IsMessageText(entry.text)
       && MessagePending(id, entry.text) in s.events
       && Transmissions(s.sent, id) == entry.retries + 1
       && id in s.sentAt
       && entry.nextRetry >= s.sentAt[id] + EarliestDue(entry.retries)
       && !Settled(s.events, id)
  }

  ghost predicate Accounts(s: Side) {
    && 1 <= s.peer.outbox.nextMessageId
    && (s.peer.outbox.nextMessageId == 1 || s.peer.outbox.nextMessageId <= s.peer.sendSequence)
    && |s.peer.outbox.pending| <= MAX_PENDING_MESSAGES
    && (forall id | id in s.peer.outbox.pending :: PendingEntry(s, id))
    && (forall id: u64 | 1 <= id < s.peer.outbox.nextMessageId && id !in s.peer.outbox.pending :: Settled(s.events, id))
    && (forall e | e in s.events && e.MessagePending? :: 1 <= e.id < s.peer.outbox.nextMessageId)
    && (forall e | e in s.events && IsFinal(e) :: e.id < s.peer.outbox.nextMessageId)
    && SettledOnce(s.events)
    && (forall id: u64 :: Transmissions(s.sent, id) <= (if id < s.peer.outbox.nextMessageId then 5 else 0))
  }

  // --- One side: requests for IPv4 -----------------------------------------------------

  ghost predicate Asks(s: Side) {
    && (s.asked == [] <==> s.peer.lastIpv4Retry.None?)
    && (s.asked != [] ==> s.peer.id.ipv6 && s.peer.lastIpv4Retry == Some(s.asked[|s.asked| - 1]))
    && (forall k | 0 <= k < |s.asked| ::
          s.peer.id.startedAt + PEER_IPV4_RETRY_DELAY <= s.asked[k] < s.peer.id.startedAt + PEER_CONNECT_TIMEOUT)
    && (forall k | 0 < k < |s.asked| :: s.asked[k - 1] + SECOND <= s.asked[k])
  }

  ghost predicate SideInv(s: Side) {
    && Handshaked(s.peer)
    && Connects(s)
    && Traffic(s)
    && Receipts(s)
    && AnnouncedInOrder(s.events)
    && Represents(s.peer.replay, s.accepted)
    && (s.status != Broken ==> Accounts(s))
    && Asks(s)
  }

  // --- Two sides -----------------------------------------------------------------------

  /** The only session both ends of the pairing can agree on. */
  function CommonSession(me: Peer, other: Peer): Session {
    if me.id.initiator then Session(me.id.context, me.id.key, other.id.key)
    else Session(me.id.context, other.id.key, me.id.key)
  }

  /** What `me` may conclude about `other`. */
  ghost predicate PairInv(me: Side, other: Side) {
    && me.peer.id.initiator == !other.peer.id.initiator
    && me.peer.id.context == other.peer.id.context
    && (me.peer.link.transport.Some? ==> me.peer.link.transport.value == CommonSession(me.peer, other.peer))
    && (me.peer.id.initiator && me.peer.link.transport.Some? ==> other.peer.link.transport.Some?)
    && (forall sequence | sequence in me.accepted :: sequence < other.peer.sendSequence)
    && (me.peer.link.readyReceived ==>
          other.peer.link.transport.Some? && me.peer.link.peerNickname == Some(other.peer.id.localNickname))
    && (me.peer.link.readyAcked ==> other.peer.link.readyReceived)
    && (forall e | e in me.events && e.PeerConnected? :: e.nickname == other.peer.id.localNickname)
    && (forall e | e in me.events && e.MessageReceived? :: MessagePending(e.id, e.text) in other.events)
    && (forall e | e in me.events && e.MessageDelivered? :: HasReceived(other.events, e.id))
  }

  ghost predicate Inv(sys: System) {
    && SideInv(sys.initiator)
    && SideInv(sys.responder)
    && PairInv(sys.initiator, sys.responder)
    && PairInv(sys.responder, sys.initiator)
  }

  // --- Growth --------------------------------------------------------------------------

  /** `t` is a later state of the side `s`. */
  ghost predicate Grows(s: Side, t: Side) {
    && s.peer.id == t.peer.id
    && s.peer.link.initialPacket == t.peer.link.initialPacket
    && (s.peer.link.transport.Some? ==> t.peer.link.transport == s.peer.link.transport)
    && (s.peer.link.responsePacket.Some? ==> t.peer.link.responsePacket == s.peer.link.responsePacket)
    && (s.peer.link.readyReceived ==> t.peer.link.readyReceived)
    && (s.peer.link.connected ==> t.peer.link.connected)
    && s.peer.sendSequence <= t.peer.sendSequence
    && s.events <= t.events
    && s.sent <= t.sent
  }

  lemma JustifiedGrows(s: Side, t: Side, plain: Plain)
    requires Grows(s, t) && Justified(s, plain)
    ensures Justified(t, plain)
  {
    if plain.MessageAck? {
      var text :| MessageReceived(plain.id, text) in s.events;
      assert MessageReceived(plain.id, text) in t.events;
    }
  }

  lemma OwnGrows(s: Side, t: Side, packet: Packet)
    requires Grows(s, t) && Own(s, packet)
    ensures Own(t, packet)
  {
    if packet.Transport? {
      JustifiedGrows(s, t, Parse(packet.body.plaintext).value);
    }
  }

  /** What `me` knows of `other` stays true when only `other` moves. */
  lemma PairGrows(me: Side, s: Side, t: Side)
    requires PairInv(me, s) && Grows(s, t)
    ensures PairInv(me, t)
  {
    forall e | e in me.events && e.MessageDelivered? ensures HasReceived(t.events, e.id) {
      assert HasReceived(s.events, e.id);
      var text :| MessageReceived(e.id, text) in s.events;
      assert MessageReceived(e.id, text) in t.events;
    }
  }
}
