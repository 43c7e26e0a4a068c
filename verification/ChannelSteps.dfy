/** Every handler keeps the invariant of its own side. */
module ChannelSteps {
  import opened Prelude
  import opened Protocol
  import opened Replay
  import opened Plaintext
  import opened PeerModel
  import opened Channel
  import opened ChannelInvariant
  import opened ChannelFrames

  // --- Handshake packets ---------------------------------------------------------------

  /** Repeats a packet that carries no sequence. */
  lemma ControlStep(s: Side, packet: Packet)
    requires SideInv(s) && Own(s, packet) && !packet.Transport?
    ensures
      var t := Advance(s, Effect(s.peer, [packet], [], None));
      SideInv(t) && Grows(s, t)
  {
    hide Traffic, Receipts, AnnouncedInOrder, Accounts, Represents, Asks;
    var t := Advance(s, Effect(s.peer, [packet], [], None));
    assert s.events == s.events + [];
    TrafficStep(s, t, [packet]);
    ConnectsFrame(s, t, []);
    ReceiptsFrame(s, t, []);
    OtherwiseUnchanged(s, t, [packet], []);
  }

  /** Before there is a transport no sequence has been used, so READY takes the first. */
  lemma FirstReady(p: Peer, now: Instant)
    requires p.link.transport.Some? && p.sendSequence == 0 && IsNickname(p.id.localNickname)
    ensures
      var e := SendReady(p, now);
      && e.error == None && e.events == [] && |e.sent| == 1
      && e.peer == p.(sendSequence := 1, clocks := p.clocks.(lastReadySend := now))
      && e.sent == Seal(p, Encode(Ready(p.id.localNickname))).sent
      && Seal(p, Encode(Ready(p.id.localNickname))).error == None
  {
    SendableLength(Ready(p.id.localNickname));
  }

  /** `q` is the peer `p` once the handshake is done; `before` is what it answered with. */
  ghost predicate Adopts(p: Peer, q: Peer, before: seq<Packet>) {
    && p.link.transport.None?
    && q.link.transport.Some?
    && q == Adopted(p, q.link.transport.value, q.link.responsePacket)
    && q.link.responsePacket == (if q.id.initiator then None else Some(Response(Reply(q.link.transport.value))))
    && before == (if q.id.initiator then [] else [q.link.responsePacket.value])
  }

  lemma AdoptTraffic(s: Side, q: Peer, before: seq<Packet>, now: Instant)
    requires Handshaked(s.peer) && Traffic(s) && Adopts(s.peer, q, before)
    ensures
      var e := Effect(q, before, [], None).Then(SendReady(q, now));
      var t := Advance(s, e);
      && Traffic(t) && Grows(s, t)
      && forall packet, id: u64 | packet in e.sent :: !Carries(packet, id)
  {
    hide Traffic;
    var f := SendReady(q, now);
    var e := Effect(q, before, [], None).Then(f);
    var t := Advance(s, e);
    FirstReady(q, now);
    assert t.events == s.events + [];
    SealedIsOwn(q, Ready(q.id.localNickname), t);
    NotATransmission(q, Ready(q.id.localNickname));
    hide Seal, Encode, SendReady;
    assert e.sent == before + [f.sent[0]];
    TrafficStep(s, t, e.sent);
  }

  lemma AdoptStep(s: Side, q: Peer, before: seq<Packet>, now: Instant)
    requires SideInv(s) && Adopts(s.peer, q, before)
    ensures
      var t := Advance(s, Effect(q, before, [], None).Then(SendReady(q, now)));
      SideInv(t) && Grows(s, t) && t.status == s.status && t.peer.link == q.link
  {
    hide Traffic, Receipts, AnnouncedInOrder, Accounts, Represents, Asks;
    var e := Effect(q, before, [], None).Then(SendReady(q, now));
    var t := Advance(s, e);
    AdoptTraffic(s, q, before, now);
    FirstReady(q, now);
    hide Seal, SendReady;
    ConnectsFrame(s, t, []);
    ReceiptsFrame(s, t, []);
    OtherwiseUnchanged(s, t, e.sent, []);
  }

  lemma AcceptHelloStep(s: Side, key: Key, now: Instant)
    requires SideInv(s) && s.peer.link.transport.None? && !s.peer.id.initiator
    ensures
      var e := AcceptHello(s.peer, key, now);
      var t := Advance(s, e);
      && SideInv(t) && Grows(s, t) && e.error == None && e.events == []
      && t.peer.link.transport == Some(Session(s.peer.id.context, key, s.peer.id.key))
      && t.peer.link.readyReceived == s.peer.link.readyReceived && t.peer.link.readyAcked == s.peer.link.readyAcked
  {
    var session := Session(s.peer.id.context, key, s.peer.id.key);
    var response := Response(Reply(session));
    var q := Adopted(s.peer, session, Some(response));
    FirstReady(q, now);
    AdoptStep(s, q, [response], now);
  }

  lemma HandleResponseStep(s: Side, reply: Reply, now: Instant)
    requires SideInv(s) && s.peer.link.transport.None? && s.peer.id.initiator
    requires ReadReply(s.peer.id.context, s.peer.id.key, reply).Some?
    ensures
      var e := HandleResponse(s.peer, reply, now);
      var t := Advance(s, e);
      && SideInv(t) && Grows(s, t) && e.error == None && e.events == []
      && t.peer.link.transport == ReadReply(s.peer.id.context, s.peer.id.key, reply)
      && t.peer.link.readyReceived == s.peer.link.readyReceived && t.peer.link.readyAcked == s.peer.link.readyAcked
  {
    var session := ReadReply(s.peer.id.context, s.peer.id.key, reply).value;
    var q := Adopted(s.peer, session, s.peer.link.responsePacket);
    FirstReady(q, now);
    AdoptStep(s, q, [], now);
    assert SendReady(q, now) == Effect(q, [], [], None).Then(SendReady(q, now));
  }

  // --- Sealed packets ------------------------------------------------------------------

  /** One more sealed packet, or none when the counter is exhausted. */
  lemma SealedStep(s: Side, p: Peer, plain: Plain, t: Side)
    requires Traffic(s) && Grows(s, t) && Sendable(plain)
    requires p.link.transport.Some? && p.link.transport == s.peer.link.transport && p.id.initiator == s.peer.id.initiator
    requires p.sendSequence == s.peer.sendSequence
    requires t.sent == s.sent + Seal(p, Encode(plain)).sent
    requires Seal(p, Encode(plain)).error.None? ==> Justified(t, plain) && t.peer.sendSequence == p.sendSequence + 1
    ensures Traffic(t)
    ensures Seal(p, Encode(plain)).error.Some? ==> t.sent == s.sent
  {
    var e := Seal(p, Encode(plain));
    if e.error.None? {
      SealedIsOwn(p, plain, t);
    }
    TrafficStep(s, t, e.sent);
  }

  /** Sealed packets that carry no message are not transmissions of one. */
  lemma NotATransmission(p: Peer, plain: Plain)
    requires Sendable(plain) && !plain.Message?
    ensures forall packet, id: u64 | packet in Seal(p, Encode(plain)).sent :: !Carries(packet, id)
  {
    hide Encode, Parse;
    PlainRoundTrip(plain);
  }

  lemma MaybeConnectStep(s: Side, p: Peer, t: Side)
    requires Handshaked(s.peer) && Connects(s) && p.link.connected == s.peer.link.connected
    requires p.link.readyReceived ==> p.link.peerNickname.Some?
    requires s.peer.link.connected ==> p.link.safetyNumber == s.peer.link.safetyNumber
    requires t.events == s.events + MaybeConnect(p).events
    requires t.peer.link.connected == MaybeConnect(p).peer.link.connected && t.peer.link.safetyNumber == p.link.safetyNumber
    requires t.peer.link.readyReceived == p.link.readyReceived && t.peer.link.readyAcked == p.link.readyAcked
    ensures Connects(t)
  {
    var raised := MaybeConnect(p).events;
    if raised == [] {
      ConnectsFrame(s, t, []);
    } else {
      assert t.events[|s.events|].PeerConnected?;
      forall i | 0 <= i < |s.events| ensures !t.events[i].PeerConnected? {
        assert t.events[i] == s.events[i];
      }
    }
  }

  lemma ReadyTraffic(s: Side, nickname: string)
    requires Handshaked(s.peer) && Traffic(s) && s.peer.link.transport.Some?
    ensures
      var e := HandlePlain(s.peer, Ready(nickname));
      var t := Advance(s, e);
      && Traffic(t) && Grows(s, t)
      && forall packet, id: u64 | packet in e.sent :: !Carries(packet, id)
  {
    hide Traffic;
    var p := s.peer.(link := s.peer.link.(peerNickname := Some(nickname), readyReceived := true));
    var f := Seal(p, Encode(ReadyAck));
    var e := HandlePlain(s.peer, Ready(nickname));
    SealShape(p, Encode(ReadyAck));
    NotATransmission(p, ReadyAck);
    hide Seal, Encode;
    assert e.sent == f.sent;
    SealedStep(s, p, ReadyAck, Advance(s, e));
  }

  lemma ReadyStep(s: Side, nickname: string)
    requires SideInv(s) && s.status == Live && s.peer.link.transport.Some?
    ensures
      var t := Advance(s, HandlePlain(s.peer, Ready(nickname)));
      SideInv(t) && Grows(s, t)
  {
    hide Traffic, Receipts, AnnouncedInOrder, Accounts, Represents, Asks;
    var p := s.peer.(link := s.peer.link.(peerNickname := Some(nickname), readyReceived := true));
    var f := Seal(p, Encode(ReadyAck));
    var e := HandlePlain(s.peer, Ready(nickname));
    var t := Advance(s, e);
    ReadyTraffic(s, nickname);
    SealShape(p, Encode(ReadyAck));
    hide Seal, Encode, Grows;
    if f.error.Some? {
      ConnectsFrame(s, t, []);
    } else {
      MaybeConnectStep(s, f.peer, t);
    }
    ReceiptsFrame(s, t, e.events);
    OtherwiseUnchanged(s, t, e.sent, e.events);
  }

  lemma ReadyAckStep(s: Side)
    requires SideInv(s) && s.status == Live && s.peer.link.transport.Some?
    ensures
      var t := Advance(s, HandlePlain(s.peer, ReadyAck));
      SideInv(t) && Grows(s, t)
  {
    hide Traffic, Receipts, AnnouncedInOrder, Accounts, Represents, Asks;
    var p := s.peer.(link := s.peer.link.(readyAcked := true));
    assert s.sent == s.sent + [];
    var e := HandlePlain(s.peer, ReadyAck);
    var t := Advance(s, e);
    TrafficStep(s, t, []);
    MaybeConnectStep(s, p, t);
    ReceiptsFrame(s, t, e.events);
    OtherwiseUnchanged(s, t, [], e.events);
  }

  // --- Deliveries ----------------------------------------------------------------------

  lemma DeliverKeepsReceipts(s: Side, id: u64, text: string, t: Side)
    requires Receipts(s)
    requires t.events == s.events + Deliver(s.peer, id, text).events
    requires t.peer.inbox == Deliver(s.peer, id, text).peer.inbox
    ensures Receipts(t)
  {
    var ids := ReceivedIds(s.events);
    var e := Deliver(s.peer, id, text);
    if id in s.peer.inbox.receivedIds {
      assert t.events == s.events;
    } else {
      ReceivedIdsAppend(s.events, e.events);
      assert ReceivedIds(e.events) == [id];
      RememberStep(s.peer.inbox, ids, id);
    }
  }

  /** An id that is not remembered was not among the last 512 delivered. */
  lemma RememberStep(inbox: Inbox, ids: seq<u64>, id: u64)
    requires Remembers(inbox, ids) && Spaced(ids) && id !in inbox.receivedIds
    ensures Remembers(Remember(inbox, id), ids + [id])
    ensures Spaced(ids + [id])
  {
    FreshIdIsFarBack(inbox, ids, id);
    RememberedIsSuffix(inbox, ids, id);
  }

  lemma FreshIdIsFarBack(inbox: Inbox, ids: seq<u64>, id: u64)
    requires Remembers(inbox, ids) && Spaced(ids) && id !in inbox.receivedIds
    ensures Spaced(ids + [id])
  {
    var all := ids + [id];
    forall i | 0 <= i < |ids| && |ids| - i <= MAX_HISTORY_DEDUP ensures ids[i] != id {
      assert Latest(ids)[i - (|ids| - |Latest(ids)|)] == ids[i];
    }
  }

  lemma RememberedIsSuffix(inbox: Inbox, ids: seq<u64>, id: u64)
    requires Remembers(inbox, ids) && Spaced(ids) && id !in inbox.receivedIds
    ensures Remembers(Remember(inbox, id), ids + [id])
  {
    var longer := inbox.receivedOrder + [id];
    LatestOfLonger(ids, id);
    forall n ensures n in longer <==> n in inbox.receivedIds + {id} {
    }
    if |longer| > MAX_HISTORY_DEDUP {
      OldestIsAlone(inbox, ids, id);
      WithoutFirst(longer);
    }
  }

  lemma LatestOfLonger(ids: seq<u64>, id: u64)
    ensures
      var longer := Latest(ids) + [id];
      Latest(ids + [id]) == if |longer| > MAX_HISTORY_DEDUP then longer[1..] else longer
  {
  }

  /** The oldest id is remembered once only. */
  lemma OldestIsAlone(inbox: Inbox, ids: seq<u64>, id: u64)
    requires Remembers(inbox, ids) && Spaced(ids) && id !in inbox.receivedIds && ids != []
    ensures var longer := inbox.receivedOrder + [id]; forall j | 0 < j < |longer| :: longer[0] != longer[j]
  {
    var order := inbox.receivedOrder;
    var base := |ids| - |order|;
    forall j | 0 < j < |order| ensures order[0] != order[j] {
      assert order[0] == ids[base] && order[j] == ids[base + j];
    }
  }

  lemma WithoutFirst(order: seq<u64>)
    requires order != [] && forall j | 0 < j < |order| :: order[0] != order[j]
    ensures forall n :: n in order[1..] <==> n in order && n != order[0]
  {
    forall n | n in order && n != order[0] ensures n in order[1..] {
      var j :| 0 <= j < |order| && order[j] == n;
      assert order[1..][j - 1] == n;
    }
  }

  lemma MessageTraffic(s: Side, id: u64, text: string)
    requires Handshaked(s.peer) && Traffic(s) && Receipts(s) && s.peer.link.transport.Some?
    ensures
      var e := HandlePlain(s.peer, Message(id, text));
      var t := Advance(s, e);
      && Traffic(t) && Grows(s, t) && Receipts(t)
      && forall packet, n: u64 | packet in e.sent :: !Carries(packet, n)
  {
    hide Traffic, Receipts;
    var f := Seal(s.peer, Encode(MessageAck(id)));
    var e := HandlePlain(s.peer, Message(id, text));
    var t := Advance(s, e);
    SealShape(s.peer, Encode(MessageAck(id)));
    NotATransmission(s.peer, MessageAck(id));
    hide Seal, Encode;
    assert e.sent == f.sent;
    if f.error.None? {
      DeliveredOrRemembered(s, id, text);
      DeliverKeepsReceipts(s, id, text, t);
    } else {
      ReceiptsFrame(s, t, []);
    }
    SealedStep(s, s.peer, MessageAck(id), t);
  }

  lemma MessageStep(s: Side, id: u64, text: string)
    requires SideInv(s) && s.status == Live && s.peer.link.transport.Some?
    ensures
      var t := Advance(s, HandlePlain(s.peer, Message(id, text)));
      SideInv(t) && Grows(s, t)
  {
    hide Traffic, Receipts, AnnouncedInOrder, Accounts, Represents, Asks;
    var e := HandlePlain(s.peer, Message(id, text));
    var t := Advance(s, e);
    MessageTraffic(s, id, text);
    SealShape(s.peer, Encode(MessageAck(id)));
    hide Seal, Encode;
    ConnectsFrame(s, t, e.events);
    OtherwiseUnchanged(s, t, e.sent, e.events);
  }

  /** Acknowledging a repeated message is justified by the earlier delivery. */
  lemma DeliveredOrRemembered(s: Side, id: u64, text: string)
    requires Receipts(s)
    ensures HasReceived(s.events + Deliver(s.peer, id, text).events, id)
  {
    var e := Deliver(s.peer, id, text);
    if id in s.peer.inbox.receivedIds {
      var ids := ReceivedIds(s.events);
      var i :| 0 <= i < |Latest(ids)| && Latest(ids)[i] == id;
      assert ids[|ids| - |Latest(ids)| + i] == id;
      ReceivedIdWasReceived(s.events, |ids| - |Latest(ids)| + i);
      assert s.events + e.events == s.events;
    } else {
      assert (s.events + e.events)[|s.events|] == MessageReceived(id, text);
      assert MessageReceived(id, text) in s.events + e.events;
    }
  }

  lemma {:induction false} ReceivedIdWasReceived(events: seq<Event>, k: nat)
    requires k < |ReceivedIds(events)|
    ensures HasReceived(events, ReceivedIds(events)[k])
  {
    var front, last := events[..|events| - 1], events[|events| - 1];
    if last.MessageReceived? && k == |ReceivedIds(front)| {
      assert MessageReceived(last.id, last.text) in events;
    } else {
      ReceivedIdWasReceived(front, k);
      var id := ReceivedIds(front)[k];
      var text :| MessageReceived(id, text) in front;
      assert MessageReceived(id, text) in events;
    }
  }

  // --- Acknowledgements ----------------------------------------------------------------

  lemma SettleStep(s: Side, t: Side, id: u64, e: Event)
    requires Accounts(s) && id in s.peer.outbox.pending
    requires e == MessageDelivered(id) || e == MessageFailed(id)
    requires t.peer.outbox.pending == s.peer.outbox.pending - {id} && t.peer.outbox.nextMessageId == s.peer.outbox.nextMessageId
    requires t.peer.sendSequence >= s.peer.sendSequence
    requires t.sent == s.sent && t.events == s.events + [e] && t.sentAt == s.sentAt
    ensures Accounts(t)
  {
    assert PendingEntry(s, id);
    assert t.peer.outbox.pending.Keys == s.peer.outbox.pending.Keys - {id};
    SettleEntries(s, t, id, e);
    SettledOnceMore(s.events, e);
  }

  lemma SettleEntries(s: Side, t: Side, id: u64, e: Event)
    requires Accounts(s) && id in s.peer.outbox.pending
    requires e == MessageDelivered(id) || e == MessageFailed(id)
    requires t.peer.outbox.pending == s.peer.outbox.pending - {id} && t.peer.outbox.nextMessageId == s.peer.outbox.nextMessageId
    requires t.sent == s.sent && t.events == s.events + [e] && t.sentAt == s.sentAt
    ensures forall n | n in t.peer.outbox.pending :: PendingEntry(t, n)
    ensures forall n: u64 | 1 <= n < t.peer.outbox.nextMessageId && n !in t.peer.outbox.pending :: Settled(t.events, n)
  {
    hide Transmissions, SettledOnce, IsMessageText;
    assert e in t.events;
    forall n | n in t.peer.outbox.pending ensures PendingEntry(t, n) {
      assert PendingEntry(s, n);
    }
    forall n: u64 | 1 <= n < t.peer.outbox.nextMessageId && n !in t.peer.outbox.pending ensures Settled(t.events, n) {
      if n != id {
        assert Settled(s.events, n);
      }
    }
  }

  lemma SettledOnceMore(events: seq<Event>, e: Event)
    requires SettledOnce(events) && IsFinal(e) && !Settled(events, e.id)
    ensures SettledOnce(events + [e])
  {
    forall i | 0 <= i < |events| && IsFinal(events[i]) ensures events[i].id != e.id {
      assert events[i] in events;
    }
  }

  /** A pending message is settled and leaves the table. */
  lemma SettlingStep(s: Side, id: u64, e: Event)
    requires SideInv(s) && s.status != Broken && id in s.peer.outbox.pending
    requires e == MessageDelivered(id) || e == MessageFailed(id)
    ensures
      var outbox := s.peer.outbox.(pending := s.peer.outbox.pending - {id});
      var t := Advance(s, Effect(s.peer.(outbox := outbox), [], [e], None));
      SideInv(t) && Grows(s, t)
  {
    hide Traffic, Receipts, AnnouncedInOrder, Accounts, Represents;
    var outbox := s.peer.outbox.(pending := s.peer.outbox.pending - {id});
    var t := Advance(s, Effect(s.peer.(outbox := outbox), [], [e], None));
    assert s.sent + [] == s.sent;
    TrafficStep(s, t, []);
    ConnectsFrame(s, t, [e]);
    AnnouncedFrame(s.events, [e]);
    ReceiptsFrame(s, t, [e]);
    SettleStep(s, t, id, e);
  }

  lemma Idle(s: Side)
    ensures Advance(s, Quiet(s.peer)) == s
    ensures Grows(s, s)
  {
    assert s.sent + [] == s.sent && s.events + [] == s.events;
  }

  lemma MessageAckStep(s: Side, id: u64)
    requires SideInv(s) && s.status == Live
    ensures
      var t := Advance(s, HandlePlain(s.peer, MessageAck(id)));
      SideInv(t) && Grows(s, t)
  {
    hide SideInv, Grows;
    if id in s.peer.outbox.pending {
      assert SideInv(s) && s.status != Broken;
      SettlingStep(s, id, MessageDelivered(id));
    } else {
      Idle(s);
    }
  }

  lemma HeartbeatArrives(s: Side)
    requires SideInv(s)
    ensures
      var t := Advance(s, HandlePlain(s.peer, Heartbeat));
      SideInv(t) && Grows(s, t)
  {
    hide SideInv, Grows;
    Idle(s);
  }

  lemma HandlePlainStep(s: Side, plain: Plain)
    requires SideInv(s) && s.status == Live && s.peer.link.transport.Some?
    ensures
      var t := Advance(s, HandlePlain(s.peer, plain));
      SideInv(t) && Grows(s, t)
  {
    hide SideInv, Grows, HandlePlain;
    match plain
    case Ready(nickname) => ReadyStep(s, nickname);
    case ReadyAck => ReadyAckStep(s);
    case Message(id, text) => MessageStep(s, id, text);
    case MessageAck(id) => MessageAckStep(s, id);
    case Heartbeat => HeartbeatArrives(s);
  }
}
