/** How each part of the invariant survives a handler that does not concern it. */
module ChannelFrames {
  import opened Prelude
  import opened Protocol
  import opened Replay
  import opened Plaintext
  import opened PeerModel
  import opened Channel
  import opened ChannelInvariant

  // --- Clocks --------------------------------------------------------------------------

  /** `q` differs from `p` in its clocks and its packet allowance at most. */
  predicate SameButClocks(p: Peer, q: Peer) {
    q == p.(clocks := q.clocks)
  }

  /** The invariant does not look at clocks. */
  lemma ClocksDoNotMatter(s: Side, q: Peer)
    requires SideInv(s) && SameButClocks(s.peer, q)
    ensures SideInv(s.(peer := q))
    ensures Grows(s, s.(peer := q))
  {
    hide Traffic, Receipts, AnnouncedInOrder, Accounts, Represents;
    var t := s.(peer := q);
    assert s.events == s.events + [] && s.sent == s.sent + [];
    TrafficStep(s, t, []);
    ConnectsFrame(s, t, []);
    ReceiptsFrame(s, t, []);
    if s.status != Broken {
      AccountsFrame(s, t, [], []);
    }
  }

  lemma ClocksDoNotMatterToPairs(me: Side, q: Peer, other: Side)
    requires PairInv(me, other) && SameButClocks(me.peer, q)
    ensures PairInv(me.(peer := q), other)
  {
    assert CommonSession(q, other.peer) == CommonSession(me.peer, other.peer);
  }

  // --- Traffic -------------------------------------------------------------------------

  lemma TrafficStep(s: Side, t: Side, more: seq<Packet>)
    requires Traffic(s) && Grows(s, t)
    requires t.sent == s.sent + more
    requires forall packet | packet in more :: Own(t, packet)
    requires Ascending(more)
    requires forall packet | packet in more && packet.Transport? :: packet.sequence >= s.peer.sendSequence
    ensures Traffic(t)
  {
    forall packet | packet in t.sent ensures Own(t, packet) {
      if packet in s.sent {
        OwnGrows(s, t, packet);
      }
    }
    assert forall packet | packet in s.sent && packet.Transport? :: packet.sequence < s.peer.sendSequence by {
      forall packet | packet in s.sent && packet.Transport? ensures packet.sequence < s.peer.sendSequence {
        assert Own(s, packet);
      }
    }
    AscendingStep(s.sent, more, s.peer.sendSequence);
  }

  lemma AscendingStep(sent: seq<Packet>, more: seq<Packet>, bound: u64)
    requires Ascending(sent) && Ascending(more)
    requires forall packet | packet in sent && packet.Transport? :: packet.sequence < bound
    requires forall packet | packet in more && packet.Transport? :: packet.sequence >= bound
    ensures Ascending(sent + more)
  {
    var all := sent + more;
    forall i, j | 0 <= i < j < |all| && all[i].Transport? && all[j].Transport?
      ensures all[i].sequence < all[j].sequence
    {
      if i < |sent| <= j {
        assert all[i] in sent && all[j] in more;
      }
    }
  }

  /** What `Seal` puts on the wire is the sender's own, whatever happens to it later. */
  lemma SealedIsOwn(p: Peer, plain: Plain, t: Side)
    requires Sendable(plain)
    requires Seal(p, Encode(plain)).error.None?
    requires t.peer.link.transport == p.link.transport && t.peer.id.initiator == p.id.initiator
    requires t.peer.sendSequence == p.sendSequence + 1
    requires Justified(t, plain)
    ensures
      var sent := Seal(p, Encode(plain)).sent;
      && |sent| == 1
      && sent[0].Transport? && sent[0].sequence == p.sendSequence
      && sent[0].body.Sealed? && Parse(sent[0].body.plaintext) == Some(plain)
      && Own(t, sent[0])
  {
    hide Justified, Encode, Parse;
    PlainRoundTrip(plain);
  }

  /** Sealing touches the counter alone. */
  lemma SealShape(p: Peer, plaintext: seq<byte>)
    ensures
      var e := Seal(p, plaintext);
      && e.events == []
      && e.peer == p.(sendSequence := e.peer.sendSequence)
      && p.sendSequence <= e.peer.sendSequence
      && (e.error.None? ==> e.peer.sendSequence == p.sendSequence + 1)
      && (e.error.Some? ==> e.sent == [])
  {
  }

  /** A ready peer can seal anything it may send, until its counter is exhausted. */
  lemma SealFailsOnlyAtTheEnd(p: Peer, plain: Plain)
    requires p.link.transport.Some? && Sendable(plain)
    ensures Seal(p, Encode(plain)).error.Some? <==> p.sendSequence == MAX_U64
  {
    SendableLength(plain);
    SealFailure(p, Encode(plain));
  }

  lemma SealFailure(p: Peer, plaintext: seq<byte>)
    requires p.link.transport.Some? && |plaintext| <= 9 + MAX_MESSAGE_BYTES
    ensures Seal(p, plaintext).error.Some? <==> p.sendSequence == MAX_U64
  {
  }

  /** A datagram has at most 1200 bytes, 29 of which are not plaintext; a plaintext that does
      not fit is refused and still uses up its sequence. */
  lemma SealRefuses(p: Peer, plaintext: seq<byte>)
    requires p.link.transport.Some? && p.sendSequence < MAX_U64
    ensures
      var e := Seal(p, plaintext);
      && e.peer == p.(sendSequence := p.sendSequence + 1)
      && e.error == if |plaintext| > 1171 then Some(NetworkError.MessageTooLong) else None
  {
  }

  // --- Receipts ------------------------------------------------------------------------

  lemma {:induction false} ReceivedIdsAppend(events: seq<Event>, more: seq<Event>)
    ensures ReceivedIds(events + more) == ReceivedIds(events) + ReceivedIds(more)
  {
    if more == [] {
      assert events + more == events;
    } else {
      var front, last := more[..|more| - 1], more[|more| - 1];
      assert (events + more)[..|events + more| - 1] == events + front;
      ReceivedIdsAppend(events, front);
    }
  }

  lemma {:induction false} NothingReceived(events: seq<Event>)
    requires forall e | e in events :: !e.MessageReceived?
    ensures ReceivedIds(events) == []
  {
    if events != [] {
      assert events[|events| - 1] in events;
      NothingReceived(events[..|events| - 1]);
    }
  }

  lemma ReceiptsFrame(s: Side, t: Side, raised: seq<Event>)
    requires Receipts(s)
    requires t.events == s.events + raised
    requires forall e | e in raised :: !e.MessageReceived?
    requires t.peer.inbox == s.peer.inbox
    ensures Receipts(t)
  {
    ReceivedIdsAppend(s.events, raised);
    NothingReceived(raised);
    assert ReceivedIds(t.events) == ReceivedIds(s.events);
  }

  // --- Connection ----------------------------------------------------------------------

  lemma ConnectsFrame(s: Side, t: Side, raised: seq<Event>)
    requires Connects(s)
    requires t.events == s.events + raised
    requires forall e | e in raised :: !e.PeerConnected?
    requires t.peer.link.connected == s.peer.link.connected
    requires s.peer.link.connected ==> t.peer.link.safetyNumber == s.peer.link.safetyNumber
    requires t.status != Broken && t.peer.link.readyReceived && t.peer.link.readyAcked ==> t.peer.link.connected
    ensures Connects(t)
  {
    forall i | 0 <= i < |t.events| && t.events[i].PeerConnected?
      ensures i < |s.events| && t.events[i] == s.events[i]
    {
    }
    if t.peer.link.connected {
      var i :| 0 <= i < |s.events| && s.events[i].PeerConnected?;
      assert t.events[i].PeerConnected?;
    }
  }

  // --- Accounts ------------------------------------------------------------------------

  lemma {:induction false} TransmissionsAppend(sent: seq<Packet>, more: seq<Packet>, id: u64)
    ensures Transmissions(sent + more, id) == Transmissions(sent, id) + Transmissions(more, id)
  {
    if more == [] {
      assert sent + more == sent;
    } else {
      var front := more[..|more| - 1];
      assert (sent + more)[..|sent + more| - 1] == sent + front;
      TransmissionsAppend(sent, front, id);
    }
  }

  lemma {:induction false} NothingTransmitted(sent: seq<Packet>, id: u64)
    requires forall packet | packet in sent :: !Carries(packet, id)
    ensures Transmissions(sent, id) == 0
  {
    if sent != [] {
      assert sent[|sent| - 1] in sent;
      NothingTransmitted(sent[..|sent| - 1], id);
    }
  }

  predicate Accountable(e: Event) {
    e.MessagePending? || IsFinal(e)
  }

  lemma SettledOnceFrame(events: seq<Event>, raised: seq<Event>)
    requires forall e | e in raised :: !IsFinal(e)
    requires SettledOnce(events)
    ensures SettledOnce(events + raised)
  {
    var all := events + raised;
    forall i | 0 <= i < |all| && IsFinal(all[i]) ensures i < |events| && all[i] == events[i] {
    }
  }

  lemma AnnouncedFrame(events: seq<Event>, raised: seq<Event>)
    requires forall e | e in raised :: !e.MessagePending?
    requires AnnouncedInOrder(events)
    ensures AnnouncedInOrder(events + raised)
  {
    var all := events + raised;
    forall i | 0 <= i < |all| && all[i].MessagePending? ensures i < |events| && all[i] == events[i] {
    }
  }

  /** A handler that neither sends, settles nor announces messages keeps the accounts. */
  lemma AccountsFrame(s: Side, t: Side, more: seq<Packet>, raised: seq<Event>)
    requires Accounts(s)
    requires t.sent == s.sent + more && t.events == s.events + raised
    requires forall packet, id: u64 | packet in more :: !Carries(packet, id)
    requires forall e | e in raised :: !Accountable(e)
    requires t.peer.outbox.pending == s.peer.outbox.pending && t.peer.outbox.nextMessageId == s.peer.outbox.nextMessageId
    requires t.peer.sendSequence >= s.peer.sendSequence && t.sentAt == s.sentAt
    ensures Accounts(t)
  {
    forall id: u64 ensures Transmissions(t.sent, id) == Transmissions(s.sent, id) {
      TransmissionsAppend(s.sent, more, id);
      NothingTransmitted(more, id);
    }
    forall id | id in t.peer.outbox.pending ensures PendingEntry(t, id) {
      assert PendingEntry(s, id);
    }
    SettledOnceFrame(s.events, raised);
  }

  /** A handler that leaves the messages, the window and the IPv4 requests alone has only
      the handshake, the connection, the traffic and the receipts to account for. */
  lemma OtherwiseUnchanged(s: Side, t: Side, more: seq<Packet>, raised: seq<Event>)
    requires SideInv(s)
    requires t.sent == s.sent + more && t.events == s.events + raised
    requires forall packet, id: u64 | packet in more :: !Carries(packet, id)
    requires forall e | e in raised :: !Accountable(e)
    requires t.peer.id == s.peer.id && t.peer.outbox == s.peer.outbox && t.peer.replay == s.peer.replay
    requires t.peer.lastIpv4Retry == s.peer.lastIpv4Retry && t.peer.sendSequence >= s.peer.sendSequence
    requires t == s.(peer := t.peer, sent := t.sent, events := t.events, status := t.status)
    requires t.status == Broken || s.status != Broken
    requires Handshaked(t.peer) && Connects(t) && Traffic(t) && Receipts(t)
    ensures SideInv(t)
  {
    hide Handshaked, Connects, Traffic, Receipts, Accounts, AnnouncedInOrder, Represents;
    if s.status != Broken {
      AccountsFrame(s, t, more, raised);
    }
    AnnouncedFrame(s.events, raised);
  }

  /** A handler that only moves messages has the traffic and the accounts to account for. */
  lemma OnlyMessagesMoved(s: Side, t: Side, raised: seq<Event>)
    requires SideInv(s) && s.peer.link.transport.Some?
    requires t.events == s.events + raised
    requires forall e | e in raised :: !e.PeerConnected? && !e.MessageReceived?
    requires t.peer == s.peer.(outbox := t.peer.outbox, sendSequence := t.peer.sendSequence)
    requires t.peer.sendSequence >= s.peer.sendSequence
    requires t == s.(peer := t.peer, sent := t.sent, events := t.events, sentAt := t.sentAt, status := t.status)
    requires t.status == Broken || s.status != Broken
    requires Traffic(t) && AnnouncedInOrder(t.events)
    requires t.status != Broken ==> Accounts(t)
    ensures SideInv(t)
  {
    ConnectsFrame(s, t, raised);
    hide Connects, Traffic, Receipts, Accounts, AnnouncedInOrder, Represents;
    ReceiptsFrame(s, t, raised);
  }
}
