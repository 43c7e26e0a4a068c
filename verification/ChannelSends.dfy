/** What a peer does of its own accord keeps the invariant: sending, ticking, closing. */
module ChannelSends {
  import opened Prelude
  import opened Replay
  import opened Plaintext
  import opened PeerModel
  import opened Channel
  import opened ChannelInvariant
  import opened ChannelFrames
  import ChannelSteps

  // --- Messages ------------------------------------------------------------------------

  /** A sealed message is one transmission of its id and of no other. */
  lemma OneTransmission(p: Peer, id: u64, text: string, sent: seq<Packet>, n: u64)
    requires IsMessageText(text) && Seal(p, Encode(Message(id, text))).error.None?
    ensures
      Transmissions(sent + Seal(p, Encode(Message(id, text))).sent, n) ==
      Transmissions(sent, n) + (if n == id then 1 else 0)
  {
    var e := Seal(p, Encode(Message(id, text)));
    PlainRoundTrip(Message(id, text));
    assert e.sent[..0] == [];
    assert Transmissions(e.sent, n) == if n == id then 1 else 0;
    TransmissionsAppend(sent, e.sent, n);
  }

  /** The sequence counter is ahead of the id counter, so it stops first. */
  lemma IdsDoNotWrap(s: Side)
    requires Handshaked(s.peer) && Accounts(s) && s.peer.link.transport.Some?
    ensures s.peer.outbox.nextMessageId <= s.peer.sendSequence
    ensures s.peer.sendSequence < MAX_U64 ==> NextId(s.peer.outbox.nextMessageId) == s.peer.outbox.nextMessageId + 1
  {
  }

  lemma NewMessageAccounts(s: Side, t: Side, text: string, now: Instant)
    requires Handshaked(s.peer) && Accounts(s) && s.peer.link.transport.Some? && IsMessageText(text)
    requires |s.peer.outbox.pending| < MAX_PENDING_MESSAGES && s.peer.sendSequence < MAX_U64
    requires
      var id := s.peer.outbox.nextMessageId;
      && t.peer.outbox == Outbox(s.peer.outbox.pending[id := PendingMessage(text, 0, now + 500 * MILLISECOND)], NextId(id))
      && t.peer.sendSequence == s.peer.sendSequence + 1
      && t.events == s.events + [MessagePending(id, text)]
      && t.sentAt == s.sentAt[id := now]
      && forall n: u64 :: Transmissions(t.sent, n) == Transmissions(s.sent, n) + (if n == id then 1 else 0)
    ensures Accounts(t)
  {
    hide PendingEntry, Settled, SettledOnce, Handshaked, Transmissions;
    var id := s.peer.outbox.nextMessageId;
    IdsDoNotWrap(s);
    assert t.peer.outbox.pending.Keys == s.peer.outbox.pending.Keys + {id};
    SettledOnceFrame(s.events, [MessagePending(id, text)]);
    NewMessageEntries(s, t, text, now);
    NewMessageSettled(s, t);
  }

  /** The next id is unused: nothing pending, sent or settled carries it. */
  lemma NextIdIsFresh(s: Side)
    requires Accounts(s)
    ensures
      var id := s.peer.outbox.nextMessageId;
      id !in s.peer.outbox.pending && Transmissions(s.sent, id) == 0 && !Settled(s.events, id)
  {
    var id := s.peer.outbox.nextMessageId;
    assert id in s.peer.outbox.pending ==> PendingEntry(s, id);
    assert Transmissions(s.sent, id) == 0;
  }

  lemma NewMessageEntries(s: Side, t: Side, text: string, now: Instant)
    requires Accounts(s) && IsMessageText(text)
    requires
      var id := s.peer.outbox.nextMessageId;
      && id < t.peer.outbox.nextMessageId
      && t.peer.outbox.pending == s.peer.outbox.pending[id := PendingMessage(text, 0, now + 500 * MILLISECOND)]
      && t.events == s.events + [MessagePending(id, text)]
      && t.sentAt == s.sentAt[id := now]
      && forall n: u64 :: Transmissions(t.sent, n) == Transmissions(s.sent, n) + (if n == id then 1 else 0)
    ensures forall n | n in t.peer.outbox.pending :: PendingEntry(t, n)
  {
    var id := s.peer.outbox.nextMessageId;
    NextIdIsFresh(s);
    assert t.events[|s.events|] == MessagePending(id, text);
    forall n | n in t.peer.outbox.pending ensures PendingEntry(t, n) {
      if n != id {
        assert PendingEntry(s, n);
      }
    }
  }

  lemma NewMessageSettled(s: Side, t: Side)
    requires Accounts(s) && s.events <= t.events
    requires t.peer.outbox.nextMessageId == s.peer.outbox.nextMessageId + 1
    requires t.peer.outbox.pending.Keys == s.peer.outbox.pending.Keys + {s.peer.outbox.nextMessageId}
    ensures forall n: u64 | 1 <= n < t.peer.outbox.nextMessageId && n !in t.peer.outbox.pending :: Settled(t.events, n)
  {
    hide Transmissions, SettledOnce, PendingEntry;
    forall n: u64 | 1 <= n < t.peer.outbox.nextMessageId && n !in t.peer.outbox.pending ensures Settled(t.events, n) {
      assert n !in t.peer.outbox.pending.Keys;
      assert Settled(s.events, n);
    }
  }

  lemma NewMessageAnnounced(s: Side, text: string)
    requires Accounts(s) && AnnouncedInOrder(s.events)
    ensures AnnouncedInOrder(s.events + [MessagePending(s.peer.outbox.nextMessageId, text)])
  {
    forall i | 0 <= i < |s.events| && s.events[i].MessagePending?
      ensures s.events[i].id < s.peer.outbox.nextMessageId
    {
      assert s.events[i] in s.events;
    }
  }

  /** One more packet of a message, or none when the counter is exhausted. */
  lemma TransmitTraffic(s: Side, p: Peer, id: u64, text: string, t: Side)
    requires Handshaked(s.peer) && Traffic(s) && s.peer.link.transport.Some? && IsMessageText(text)
    requires p == s.peer.(outbox := p.outbox)
    requires t.sent == s.sent + Seal(p, Encode(Message(id, text))).sent
    requires t.peer == Seal(p, Encode(Message(id, text))).peer.(outbox := t.peer.outbox)
    requires s.events <= t.events
    requires Seal(p, Encode(Message(id, text))).error.None? ==> MessagePending(id, text) in t.events
    ensures Traffic(t) && Grows(s, t)
  {
    hide Traffic;
    SealShape(p, Encode(Message(id, text)));
    hide Seal, Encode;
    ChannelSteps.SealedStep(s, p, Message(id, text), t);
  }

  lemma NewMessageStep(s: Side, text: string, now: Instant)
    requires SideInv(s) && s.status == Live && s.peer.link.connected && IsMessageText(text)
    requires |s.peer.outbox.pending| < MAX_PENDING_MESSAGES
    ensures
      var t := SayAt(s, text, now);
      SideInv(t) && Grows(s, t)
  {
    hide Traffic, Receipts, AnnouncedInOrder, Accounts, Represents, Asks;
    var id := s.peer.outbox.nextMessageId;
    var p := s.peer.(outbox := s.peer.outbox.(nextMessageId := NextId(id)));
    var f := Seal(p, Encode(Message(id, text)));
    var e := SendMessage(s.peer, text, now);
    var t := SayAt(s, text, now);
    SealShape(p, Encode(Message(id, text)));
    SealFailsOnlyAtTheEnd(p, Message(id, text));
    if f.error.None? {
      forall n: u64 ensures Transmissions(t.sent, n) == Transmissions(s.sent, n) + (if n == id then 1 else 0) {
        OneTransmission(p, id, text, s.sent, n);
      }
    }
    hide Seal, Encode;
    assert t.sent == s.sent + f.sent;
    if f.error.None? {
      assert t.events[|s.events|] == MessagePending(id, text);
      NewMessageAccounts(s, t, text, now);
      NewMessageAnnounced(s, text);
    } else {
      assert t.events == s.events;
    }
    TransmitTraffic(s, p, id, text, t);
    OnlyMessagesMoved(s, t, e.events);
  }

  lemma RefusedStep(s: Side, reason: NetworkError)
    requires SideInv(s) && s.status == Live
    ensures
      var t := Advance(s, Effect(s.peer, [], [Refused(reason)], None));
      SideInv(t) && Grows(s, t)
  {
    hide Traffic, Receipts, AnnouncedInOrder, Accounts, Represents, Asks;
    var t := Advance(s, Effect(s.peer, [], [Refused(reason)], None));
    assert s.sent + [] == s.sent;
    TrafficStep(s, t, []);
    ConnectsFrame(s, t, [Refused(reason)]);
    ReceiptsFrame(s, t, [Refused(reason)]);
    OtherwiseUnchanged(s, t, [], [Refused(reason)]);
  }

  lemma SayStep(s: Side, text: string, now: Instant)
    requires SideInv(s) && s.status == Live
    ensures
      var t := SayAt(s, text, now);
      SideInv(t) && Grows(s, t)
  {
    hide SideInv, Grows;
    if !IsMessageText(text) {
      RefusedStep(s, MessageTooLong);
    } else if !s.peer.link.connected {
      RefusedStep(s, NotConnected);
    } else if |s.peer.outbox.pending| >= MAX_PENDING_MESSAGES {
      RefusedStep(s, RateLimited);
    } else {
      NewMessageStep(s, text, now);
    }
  }

  // --- Retransmissions -----------------------------------------------------------------

  lemma RepeatAccounts(s: Side, t: Side, id: u64, now: Instant)
    requires Accounts(s) && id in s.peer.outbox.pending
    requires s.peer.outbox.pending[id].retries < 4 && now >= s.peer.outbox.pending[id].nextRetry
    requires
      var entry := s.peer.outbox.pending[id];
      var again := PendingMessage(entry.text, entry.retries + 1, now + RetryDelay(entry.retries + 1));
      && t.peer.outbox == s.peer.outbox.(pending := s.peer.outbox.pending[id := again])
      && t.peer.sendSequence >= s.peer.sendSequence
      && t.events == s.events && t.sentAt == s.sentAt
      && forall n: u64 :: Transmissions(t.sent, n) == Transmissions(s.sent, n) + (if n == id then 1 else 0)
    ensures Accounts(t)
  {
    hide Transmissions, Settled, SettledOnce, IsMessageText;
    assert PendingEntry(s, id);
    assert t.peer.outbox.pending.Keys == s.peer.outbox.pending.Keys;
    forall n | n in t.peer.outbox.pending ensures PendingEntry(t, n) {
      assert PendingEntry(s, n);
    }
    forall n: u64 | 1 <= n < t.peer.outbox.nextMessageId && n !in t.peer.outbox.pending ensures Settled(t.events, n) {
      assert Settled(s.events, n);
    }
  }

  lemma RepeatTransmits(s: Side, id: u64, now: Instant)
    requires id in s.peer.outbox.pending && s.peer.outbox.pending[id].retries < 4
    requires IsMessageText(s.peer.outbox.pending[id].text)
    requires RetryOne(s.peer, id, now).error.None?
    ensures
      var e := RetryOne(s.peer, id, now);
      forall n: u64 :: Transmissions(s.sent + e.sent, n) == Transmissions(s.sent, n) + (if n == id then 1 else 0)
  {
    var text := s.peer.outbox.pending[id].text;
    var p := s.peer.(outbox := s.peer.outbox.(pending := s.peer.outbox.pending - {id}));
    var e := RetryOne(s.peer, id, now);
    forall n: u64 ensures Transmissions(s.sent + e.sent, n) == Transmissions(s.sent, n) + (if n == id then 1 else 0) {
      OneTransmission(p, id, text, s.sent, n);
    }
  }

  /** The entry is put back with one more retry and a later due time. */
  lemma RepeatShape(p: Peer, id: u64, now: Instant)
    requires id in p.outbox.pending && p.outbox.pending[id].retries < 4
    requires RetryOne(p, id, now).error.None?
    ensures
      var entry := p.outbox.pending[id];
      var again := PendingMessage(entry.text, entry.retries + 1, now + RetryDelay(entry.retries + 1));
      var e := RetryOne(p, id, now);
      && e.events == []
      && e.peer.outbox == p.outbox.(pending := p.outbox.pending[id := again])
      && e.peer.sendSequence >= p.sendSequence
  {
    var entry := p.outbox.pending[id];
    var again := PendingMessage(entry.text, entry.retries + 1, now + RetryDelay(entry.retries + 1));
    SealShape(p.(outbox := p.outbox.(pending := p.outbox.pending - {id})), Encode(Message(id, entry.text)));
    hide Seal, Encode;
    assert (p.outbox.pending - {id})[id := again] == p.outbox.pending[id := again];
  }

  lemma RepeatKeepsAccounts(s: Side, id: u64, now: Instant)
    requires Accounts(s) && id in s.peer.outbox.pending
    requires s.peer.outbox.pending[id].retries < 4 && now >= s.peer.outbox.pending[id].nextRetry
    requires RetryOne(s.peer, id, now).error.None?
    ensures Accounts(Advance(s, RetryOne(s.peer, id, now)))
  {
    hide Accounts, RetryOne, Transmissions, RetryDelay;
    var e := RetryOne(s.peer, id, now);
    PendingText(s, id);
    RepeatTransmits(s, id, now);
    RepeatShape(s.peer, id, now);
    assert s.events + e.events == s.events;
    RepeatAccounts(s, Advance(s, e), id, now);
  }

  lemma PendingText(s: Side, id: u64)
    requires Accounts(s) && id in s.peer.outbox.pending
    ensures
      var text := s.peer.outbox.pending[id].text;
      IsMessageText(text) && MessagePending(id, text) in s.events
  {
    assert PendingEntry(s, id);
  }

  lemma RepeatStep(s: Side, id: u64, now: Instant)
    requires SideInv(s) && s.status == Live && s.peer.link.transport.Some? && id in s.peer.outbox.pending
    requires s.peer.outbox.pending[id].retries < 4 && now >= s.peer.outbox.pending[id].nextRetry
    ensures
      var t := Advance(s, RetryOne(s.peer, id, now));
      SideInv(t) && Grows(s, t)
  {
    hide Traffic, Receipts, AnnouncedInOrder, Accounts, Represents, Asks;
    var entry := s.peer.outbox.pending[id];
    PendingText(s, id);
    var p := s.peer.(outbox := s.peer.outbox.(pending := s.peer.outbox.pending - {id}));
    var e := RetryOne(s.peer, id, now);
    var t := Advance(s, e);
    SealShape(p, Encode(Message(id, entry.text)));
    if e.error.None? {
      RepeatKeepsAccounts(s, id, now);
    }
    hide Seal, Encode;
    assert t.events == s.events;
    TransmitTraffic(s, p, id, entry.text, t);
    OnlyMessagesMoved(s, t, []);
  }

  lemma RetryOneStep(s: Side, id: u64, now: Instant)
    requires SideInv(s) && s.status == Live && s.peer.link.transport.Some? && id in s.peer.outbox.pending
    requires now >= s.peer.outbox.pending[id].nextRetry
    ensures
      var t := Advance(s, RetryOne(s.peer, id, now));
      SideInv(t) && Grows(s, t)
  {
    hide SideInv, Grows;
    if s.peer.outbox.pending[id].retries >= 4 {
      ChannelSteps.SettlingStep(s, id, MessageFailed(id));
    } else {
      RepeatStep(s, id, now);
    }
  }

  /** Retransmitting concerns the table entry of one id and the counter. */
  lemma RetryOneFrame(p: Peer, id: u64, now: Instant)
    ensures
      var q := RetryOne(p, id, now).peer;
      && q == p.(outbox := p.outbox.(pending := q.outbox.pending), sendSequence := q.sendSequence)
      && p.sendSequence <= q.sendSequence
      && forall n | n != id ::
           (n in q.outbox.pending <==> n in p.outbox.pending) &&
           (n in p.outbox.pending ==> q.outbox.pending[n] == p.outbox.pending[n])
  {
  }

  /** Ids that are not retried keep their entries. */
  lemma {:induction false} RetryAllFrame(p: Peer, due: seq<u64>, now: Instant)
    ensures
      var q := RetryAll(p, due, now).peer;
      && q == p.(outbox := p.outbox.(pending := q.outbox.pending), sendSequence := q.sendSequence)
      && forall n | n !in due ::
           (n in q.outbox.pending <==> n in p.outbox.pending) &&
           (n in p.outbox.pending ==> q.outbox.pending[n] == p.outbox.pending[n])
  {
    if due != [] {
      var front, id := due[..|due| - 1], due[|due| - 1];
      var e := RetryAll(p, front, now);
      RetryAllFrame(p, front, now);
      RetryOneFrame(e.peer, id, now);
      assert due == front + [id];
    }
  }

  lemma AdvanceTwice(s: Side, e: Effect, f: Effect)
    requires e.error.None?
    ensures Advance(s, e.Then(f)) == Advance(Advance(s, e), f)
  {
    assert s.sent + (e.sent + f.sent) == (s.sent + e.sent) + f.sent;
    assert s.events + (e.events + f.events) == (s.events + e.events) + f.events;
  }

  lemma GrowsThrough(s: Side, t: Side, u: Side)
    requires Grows(s, t) && Grows(t, u)
    ensures Grows(s, u)
  {
  }

  ghost predicate AllDue(p: Peer, due: seq<u64>, now: Instant) {
    && (forall i, j | 0 <= i < j < |due| :: due[i] != due[j])
    && (forall id | id in due :: id in p.outbox.pending && now >= p.outbox.pending[id].nextRetry)
  }

  lemma AllDueFront(p: Peer, due: seq<u64>, now: Instant)
    requires AllDue(p, due, now) && due != []
    ensures
      var front, id := due[..|due| - 1], due[|due| - 1];
      AllDue(p, front, now) && id !in front && id in p.outbox.pending && now >= p.outbox.pending[id].nextRetry
  {
    var front, id := due[..|due| - 1], due[|due| - 1];
    assert forall n | n in front :: n in due;
    assert id in due;
  }

  lemma {:induction false} RetryAllStep(s: Side, due: seq<u64>, now: Instant)
    requires SideInv(s) && s.status == Live && s.peer.link.transport.Some? && AllDue(s.peer, due, now)
    ensures
      var t := Advance(s, RetryAll(s.peer, due, now));
      SideInv(t) && Grows(s, t)
  {
    hide SideInv, Grows, RetryOne;
    if due == [] {
      ChannelSteps.Idle(s);
    } else {
      var front, id := due[..|due| - 1], due[|due| - 1];
      AllDueFront(s.peer, due, now);
      RetryAllStep(s, front, now);
      var e := RetryAll(s.peer, front, now);
      var t := Advance(s, e);
      if e.error.None? {
        RetryAllFrame(s.peer, front, now);
        RetryOneStep(t, id, now);
        AdvanceTwice(s, e, RetryOne(e.peer, id, now));
        GrowsThrough(s, t, Advance(t, RetryOne(e.peer, id, now)));
      }
    }
  }
}
