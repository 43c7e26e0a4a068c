/** The peer connection as the client keeps it: one object whose handlers update its
    fields in place. Each method is specified by the effect of the same handler on the
    peer's value, so what is proved about `PeerModel` holds of this object. */
module SecureChannel {
  import opened Prelude
  import opened Protocol
  import opened Replay
  import opened Plaintext
  import opened PeerModel

  class SecurePeer {
    const initiator: bool
    const context: Context
    const key: Key
    const ipv6: bool
    const localNickname: string
    var handshake: bool
    var transport: Option<Session>
    var initialPacket: Option<Packet>
    var responsePacket: Option<Packet>
    var sendSequence: u64
    const replay: ReplayWindow
    var readyReceived: bool
    var readyAcked: bool
    var connected: bool
    const startedAt: Instant
    var lastHandshakeSend: Instant
    var lastReadySend: Instant
    var lastReceived: Instant
    var lastHeartbeatSend: Instant
    var pending: map<u64, PendingMessage>
    var nextMessageId: u64
    var receivedIds: set<u64>
    var receivedOrder: seq<u64>
    var rateStarted: Instant
    var packetsThisSecond: nat
    var safetyNumber: Option<Session>
    var peerNickname: Option<string>
    var lastIpv4Retry: Option<Instant>

    function View(): Peer
      reads this, replay
    {
      Peer(
        Identity(initiator, context, key, ipv6, localNickname, startedAt),
        Link(handshake, transport, initialPacket, responsePacket,
             readyReceived, readyAcked, connected, safetyNumber, peerNickname),
        Clocks(lastHandshakeSend, lastReadySend, lastReceived, lastHeartbeatSend, rateStarted, packetsThisSecond),
        Outbox(pending, nextMessageId),
        Inbox(receivedIds, receivedOrder),
        sendSequence, replay.View(), lastIpv4Retry)
    }

    /** For a nickname the room accepted; see `Connect` for the check. */
    constructor (context: Context, initiator: bool, key: Key, ipv6: bool, nickname: string, now: Instant)
      ensures View() == NewPeer(context, initiator, key, ipv6, nickname, now)
      ensures fresh(replay)
    {
      this.initiator, this.context, this.key, this.ipv6, localNickname := initiator, context, key, ipv6, nickname;
      handshake, transport := true, None;
      initialPacket := if initiator then Some(Init(Hello(context, key))) else None;
      responsePacket := None;
      sendSequence := 0;
      replay := new ReplayWindow();
      readyReceived, readyAcked, connected := false, false, false;
      startedAt := now;
      lastReceived, lastHeartbeatSend := now, now;
      lastHandshakeSend, lastReadySend := now - SECOND, now - SECOND;
      pending, nextMessageId := map[], 1;
      receivedIds, receivedOrder := {}, [];
      rateStarted, packetsThisSecond := now, 0;
      safetyNumber, peerNickname, lastIpv4Retry := None, None, None;
    }

    method AllowPacket(now: Instant) returns (allowed: bool)
      modifies this
      ensures (View(), allowed) == PeerModel.AllowPacket(old(View()), now)
    {
      if Since(now, rateStarted) >= SECOND {
        rateStarted := now;
        packetsThisSecond := 0;
      }
      if packetsThisSecond >= PACKETS_PER_SECOND {
        return false;
      }
      packetsThisSecond := packetsThisSecond + 1;
      return true;
    }

    method Encrypt(plaintext: seq<byte>) returns (sent: seq<Packet>, error: Option<NetworkError>)
      modifies this
      ensures Effect(View(), sent, [], error) == Seal(old(View()), plaintext)
    {
      sent := [];
      if transport.None? {
        return [], Some(PeerAuthenticationFailed);
      }
      var sequence := sendSequence;
      if sendSequence == MAX_U64 {
        return [], Some(PeerAuthenticationFailed);
      }
      sendSequence := sendSequence + 1;
      if |plaintext| + TRANSPORT_OVERHEAD > MAX_DATAGRAM {
        return [], Some(MessageTooLong);
      }
      sent := [Transport(sequence, Sealed(transport.value, initiator, sequence, plaintext))];
      error := None;
    }

    /** A plaintext that opens is recorded before it is looked at. */
    method Decrypt(sequence: u64, body: Sealed) returns (plaintext: Option<seq<byte>>)
      requires transport.Some?
      modifies replay
      ensures plaintext == Opened(old(View()), sequence, body)
      ensures View() ==
              if plaintext.None? then old(View()) else old(View()).(replay := Record(old(replay.View()), sequence))
    {
      var accept := replay.Accepts(sequence);
      if !accept {
        return None;
      }
      plaintext := Open(transport.value, !initiator, sequence, body);
      if plaintext.None? {
        return;
      }
      replay.Mark(sequence);
    }

    method SendReady(now: Instant) returns (sent: seq<Packet>, error: Option<NetworkError>)
      modifies this
      ensures Effect(View(), sent, [], error) == PeerModel.SendReady(old(View()), now)
    {
      sent, error := Encrypt(Encode(Ready(localNickname)));
      if error.Some? {
        return;
      }
      lastReadySend := now;
    }

    method MaybeMarkConnected() returns (events: seq<Event>)
      modifies this
      ensures Effect(View(), [], events, None) == MaybeConnect(old(View()))
    {
      events := [];
      if !connected && readyReceived && readyAcked {
        if peerNickname.None? {
          return;
        }
        connected := true;
        events := [PeerConnected(peerNickname.value, safetyNumber)];
      }
    }

    method Deduplicate(id: u64, text: string) returns (events: seq<Event>)
      modifies this
      ensures Effect(View(), [], events, None) == Deliver(old(View()), id, text)
    {
      events := [];
      if id !in receivedIds {
        receivedIds := receivedIds + {id};
        receivedOrder := receivedOrder + [id];
        if |receivedOrder| > MAX_HISTORY_DEDUP {
          var oldest := receivedOrder[0];
          receivedOrder := receivedOrder[1..];
          receivedIds := receivedIds - {oldest};
        }
        events := [MessageReceived(id, text)];
      }
    }

    method HandleReady(nickname: string)
      returns (sent: seq<Packet>, events: seq<Event>, error: Option<NetworkError>)
      modifies this
      ensures Effect(View(), sent, events, error) == HandlePlain(old(View()), Ready(nickname))
    {
      hide Seal, Encode, MaybeConnect;
      events := [];
      peerNickname := Some(nickname);
      readyReceived := true;
      sent, error := Encrypt(Encode(ReadyAck));
      if error.Some? {
        return;
      }
      events := MaybeMarkConnected();
    }

    method HandleMessage(id: u64, text: string)
      returns (sent: seq<Packet>, events: seq<Event>, error: Option<NetworkError>)
      modifies this
      ensures Effect(View(), sent, events, error) == HandlePlain(old(View()), Message(id, text))
    {
      events := [];
      sent, error := Encrypt(Encode(MessageAck(id)));
      if error.Some? {
        return;
      }
      events := Deduplicate(id, text);
    }

    method HandleMessageAck(id: u64) returns (events: seq<Event>)
      modifies this
      ensures Effect(View(), [], events, None) == HandlePlain(old(View()), MessageAck(id))
    {
      events := [];
      if id in pending {
        pending := pending - {id};
        events := [MessageDelivered(id)];
      }
    }

    method HandlePlaintext(plaintext: seq<byte>)
      returns (sent: seq<Packet>, events: seq<Event>, error: Option<NetworkError>)
      modifies this
      ensures Effect(View(), sent, events, error) == PeerModel.HandlePlaintext(old(View()), plaintext)
    {
      sent, events, error := [], [], None;
      match Parse(plaintext)
      case None =>
        error := Some(PeerAuthenticationFailed);
      case Some(Ready(nickname)) =>
        sent, events, error := HandleReady(nickname);
      case Some(ReadyAck) =>
        readyAcked := true;
        events := MaybeMarkConnected();
      case Some(Message(id, text)) =>
        sent, events, error := HandleMessage(id, text);
      case Some(MessageAck(id)) =>
        events := HandleMessageAck(id);
      case Some(Heartbeat) =>
    }

    method HandleInit(hello: Hello, now: Instant)
      returns (sent: seq<Packet>, error: Option<NetworkError>)
      modifies this
      ensures Effect(View(), sent, [], error) == PeerModel.HandleInit(old(View()), hello, now)
    {
      sent, error := [], None;
      if responsePacket.Some? {
        return [responsePacket.value], None;
      }
      if !handshake {
        return [], Some(PeerAuthenticationFailed);
      }
      var theirs := ReadHello(context, hello);
      if theirs.None? {
        handshake := false;
        return [], Some(PeerAuthenticationFailed);
      }
      sent, error := AcceptHello(theirs.value, now);
    }

    method AcceptHello(theirs: Key, now: Instant)
      returns (sent: seq<Packet>, error: Option<NetworkError>)
      modifies this
      ensures Effect(View(), sent, [], error) == PeerModel.AcceptHello(old(View()), theirs, now)
    {
      var session := Session(context, theirs, key);
      var response := Response(Reply(session));
      Adopt(session, Some(response));
      var more;
      more, error := SendReady(now);
      sent := [response] + more;
    }

    method Adopt(session: Session, response: Option<Packet>)
      modifies this
      ensures View() == Adopted(old(View()), session, response)
    {
      handshake := false;
      responsePacket := response;
      if context.security.Public? {
        safetyNumber := Some(session);
      }
      transport := Some(session);
    }

    method HandleResponse(reply: Reply, now: Instant)
      returns (sent: seq<Packet>, error: Option<NetworkError>)
      modifies this
      ensures Effect(View(), sent, [], error) == PeerModel.HandleResponse(old(View()), reply, now)
    {
      sent, error := [], None;
      if !handshake {
        return [], Some(PeerAuthenticationFailed);
      }
      var session := ReadReply(context, key, reply);
      if session.None? {
        handshake := false;
        return [], Some(PeerAuthenticationFailed);
      }
      Adopt(session.value, responsePacket);
      sent, error := SendReady(now);
    }

    method HandlePacket(packet: Packet, now: Instant)
      returns (sent: seq<Packet>, events: seq<Event>, error: Option<NetworkError>)
      modifies this, replay
      ensures Effect(View(), sent, events, error) == PeerModel.HandlePacket(old(View()), packet, now)
    {
      sent, events, error := [], [], None;
      if packet.Foreign? {
        return;
      }
      lastReceived := now;
      match packet
      case Punch =>
        if initialPacket.Some? {
          sent := [initialPacket.value];
        }
      case Init(hello) =>
        if !initiator {
          sent, error := HandleInit(hello, now);
        }
      case Response(reply) =>
        if initiator && transport.None? {
          sent, error := HandleResponse(reply, now);
        }
      case Transport(sequence, body) =>
        if transport.Some? {
          var plaintext := Decrypt(sequence, body);
          if plaintext.Some? {
            sent, events, error := HandlePlaintext(plaintext.value);
          }
        }
      case _ =>
    }

    method Receive(packet: Packet, now: Instant)
      returns (sent: seq<Packet>, events: seq<Event>, error: Option<NetworkError>)
      modifies this, replay
      ensures Effect(View(), sent, events, error) == PeerModel.Receive(old(View()), packet, now)
    {
      sent, events, error := [], [], None;
      var allowed := AllowPacket(now);
      if allowed {
        sent, events, error := HandlePacket(packet, now);
      }
    }

    method SendMessage(text: string, now: Instant)
      returns (sent: seq<Packet>, events: seq<Event>, error: Option<NetworkError>)
      modifies this
      ensures Effect(View(), sent, events, error) == PeerModel.SendMessage(old(View()), text, now)
    {
      sent, events, error := [], [], None;
      if !IsMessageText(text) {
        return [], [Refused(MessageTooLong)], None;
      }
      if !connected {
        return [], [Refused(NotConnected)], None;
      }
      if |pending| >= MAX_PENDING_MESSAGES {
        return [], [Refused(RateLimited)], None;
      }
      var id := nextMessageId;
      nextMessageId := NextId(nextMessageId);
      sent, error := Encrypt(Encode(Message(id, text)));
      if error.Some? {
        return;
      }
      pending := pending[id := PendingMessage(text, 0, now + 500 * MILLISECOND)];
      events := [MessagePending(id, text)];
    }

    method PeerConnectionAction(now: Instant) returns (action: TickAction)
      modifies this
      ensures (View(), action) == ConnectionAction(old(View()), now)
    {
      if connected {
        return Continue;
      }
      var elapsed := Since(now, startedAt);
      if elapsed >= PEER_CONNECT_TIMEOUT {
        return HandshakeTimedOut;
      }
      if ipv6 && elapsed >= PEER_IPV4_RETRY_DELAY
         && (lastIpv4Retry.None? || Since(now, lastIpv4Retry.value) >= SECOND) {
        lastIpv4Retry := Some(now);
        return RetryIpv4;
      }
      return Continue;
    }

    method RepeatHandshake(now: Instant) returns (sent: seq<Packet>, error: Option<NetworkError>)
      modifies this
      ensures Effect(View(), sent, [], error) == Handshake(old(View()), now)
    {
      sent, error := [], None;
      if transport.None? && Since(now, lastHandshakeSend) >= 250 * MILLISECOND {
        sent := [if initialPacket.Some? then initialPacket.value else Punch];
        lastHandshakeSend := now;
      } else if transport.Some? && !connected && Since(now, lastReadySend) >= 500 * MILLISECOND {
        sent, error := SendReady(now);
      }
    }

    method Heartbeats(now: Instant) returns (sent: seq<Packet>, error: Option<NetworkError>)
      modifies this
      ensures Effect(View(), sent, [], error) == SendHeartbeat(old(View()), now)
    {
      sent, error := [], None;
      if connected && Since(now, lastHeartbeatSend) >= 30 * SECOND {
        sent, error := Encrypt(Encode(Heartbeat));
        if error.Some? {
          return;
        }
        lastHeartbeatSend := now;
      }
    }

    /** The due messages, in whatever order the table yields them. */
    method CollectDue(now: Instant) returns (due: seq<u64>)
      ensures Enumerates(due, DueIds(View(), now))
    {
      due := Enumerate(DueIds(View(), now));
    }

    method RetryMessage(id: u64, now: Instant)
      returns (sent: seq<Packet>, events: seq<Event>, error: Option<NetworkError>)
      modifies this
      ensures Effect(View(), sent, events, error) == RetryOne(old(View()), id, now)
    {
      sent, events, error := [], [], None;
      if id !in pending {
        return;
      }
      var entry := pending[id];
      pending := pending - {id};
      if entry.retries >= 4 {
        return [], [MessageFailed(id)], None;
      }
      sent, error := Encrypt(Encode(Message(id, entry.text)));
      if error.Some? {
        return;
      }
      var retries := entry.retries + 1;
      pending := pending[id := PendingMessage(entry.text, retries, now + RetryDelay(retries))];
    }

    method RetryDue(due: seq<u64>, now: Instant)
      returns (sent: seq<Packet>, events: seq<Event>, error: Option<NetworkError>)
      modifies this
      ensures Effect(View(), sent, events, error) == RetryAll(old(View()), due, now)
    {
      sent, events, error := [], [], None;
      for i := 0 to |due|
        invariant error == None
        invariant Effect(View(), sent, events, None) == RetryAll(old(View()), due[..i], now)
      {
        assert due[..i + 1][..i] == due[..i];
        var packets, raised;
        packets, raised, error := RetryMessage(due[i], now);
        sent, events := sent + packets, events + raised;
        if error.Some? {
          RetryAllStops(old(View()), due, i + 1, now);
          return;
        }
      }
      assert due[..|due|] == due;
    }

    method Tick(now: Instant)
      returns (sent: seq<Packet>, events: seq<Event>, error: Option<NetworkError>, action: TickAction, ghost due: seq<u64>)
      modifies this
      ensures Enumerates(due, DueIds(old(View()), now))
      ensures TickResult(Effect(View(), sent, events, error), action) == PeerModel.Tick(old(View()), due, now)
    {
      sent, events, error := [], [], None;
      var ids := CollectDue(now);
      due := ids;
      action := PeerConnectionAction(now);
      if action != Continue {
        return;
      }
      sent, error := RepeatHandshake(now);
      if error.Some? {
        return;
      }
      if connected && Since(now, lastReceived) > 90 * SECOND {
        action := ConnectionLost;
        return;
      }
      var more;
      more, error := Heartbeats(now);
      sent := sent + more;
      if error.Some? {
        return;
      }
      more, events, error := RetryDue(ids, now);
      sent := sent + more;
    }

    method FailPending() returns (events: seq<Event>, ghost order: seq<u64>)
      modifies this
      ensures Enumerates(order, old(pending.Keys))
      ensures Effect(View(), [], events, None) == PeerModel.FailPending(old(View()), order)
    {
      var ids := Enumerate(pending.Keys);
      order := ids;
      events := [];
      for i := 0 to |ids|
        invariant events == Failures(ids[..i])
      {
        events := events + [MessageFailed(ids[i])];
      }
      assert ids[..|ids|] == ids;
      pending := map[];
    }
  }

  /** `SecurePeer::new`: a nickname that normalisation would change is refused. */
  method Connect(context: Context, initiator: bool, key: Key, ipv6: bool, nickname: string, now: Instant)
    returns (peer: Option<SecurePeer>)
    ensures peer.Some? <==> IsNickname(nickname)
    ensures peer.Some? ==> fresh(peer.value) && fresh(peer.value.replay)
    ensures peer.Some? ==> peer.value.View() == NewPeer(context, initiator, key, ipv6, nickname, now)
  {
    if NormalizeNickname(nickname) != Some(nickname) {
      return None;
    }
    var created := new SecurePeer(context, initiator, key, ipv6, nickname, now);
    return Some(created);
  }

  method Enumerate(ids: set<u64>) returns (order: seq<u64>)
    ensures Enumerates(order, ids)
  {
    order := [];
    var rest := ids;
    while rest != {}
      invariant rest <= ids
      invariant Enumerates(order, ids - rest)
      decreases rest
    {
      var id :| id in rest;
      order := order + [id];
      rest := rest - {id};
    }
  }

  /** Once a retransmission fails, the ids after it are not looked at. */
  lemma {:induction false} RetryAllStops(p: Peer, due: seq<u64>, k: nat, now: Instant)
    requires k <= |due| && RetryAll(p, due[..k], now).error.Some?
    ensures RetryAll(p, due, now) == RetryAll(p, due[..k], now)
    decreases |due|
  {
    if k < |due| {
      var front := due[..|due| - 1];
      assert front[..k] == due[..k];
      RetryAllStops(p, front, k, now);
    } else {
      assert due[..k] == due;
    }
  }
}
