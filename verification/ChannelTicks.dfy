/** Ticking and closing keep the invariant of the side. */
module ChannelTicks {
  import opened Prelude
  import opened Replay
  import opened Plaintext
  import opened PeerModel
  import opened Channel
  import opened ChannelInvariant
  import opened ChannelFrames
  import ChannelSteps
  import opened ChannelSends

  // --- Handshake repeats and heartbeats ------------------------------------------------

  lemma SealedAlone(s: Side, plain: Plain)
    requires SideInv(s) && s.status == Live && s.peer.link.transport.Some?
    requires Sendable(plain) && !plain.Message? && Justified(s, plain)
    ensures
      var t := Advance(s, Seal(s.peer, Encode(plain)));
      SideInv(t) && Grows(s, t)
  {
    hide Traffic, Receipts, AnnouncedInOrder, Accounts, Represents, Asks;
    var e := Seal(s.peer, Encode(plain));
    var t := Advance(s, e);
    SealShape(s.peer, Encode(plain));
    ChannelSteps.NotATransmission(s.peer, plain);
    hide Seal, Encode;
    assert t.events == s.events;
    assert Grows(s, t);
    JustifiedGrows(s, t, plain);
    ChannelSteps.SealedStep(s, s.peer, plain, t);
    ConnectsFrame(s, t, []);
    ReceiptsFrame(s, t, []);
    OtherwiseUnchanged(s, t, e.sent, []);
  }

  /** An effect that sets a clock at the end. */
  lemma ThenClocks(s: Side, e: Effect, clocks: Clocks)
    requires SideInv(Advance(s, e)) && Grows(s, Advance(s, e))
    ensures
      var t := Advance(s, e.(peer := e.peer.(clocks := clocks)));
      SideInv(t) && Grows(s, t)
  {
    hide SideInv, Grows;
    var t := Advance(s, e);
    ClocksDoNotMatter(t, t.peer.(clocks := clocks));
    GrowsThrough(s, t, t.(peer := t.peer.(clocks := clocks)));
    assert Advance(s, e.(peer := e.peer.(clocks := clocks))) == t.(peer := t.peer.(clocks := clocks));
  }

  lemma HandshakeStep(s: Side, now: Instant)
    requires SideInv(s) && s.status == Live
    ensures
      var t := Advance(s, Handshake(s.peer, now));
      SideInv(t) && Grows(s, t)
  {
    var e := Handshake(s.peer, now);
    var p := s.peer;
    assert Handshaked(p);
    hide SideInv, Grows;
    if p.link.transport.None? && Since(now, p.clocks.lastHandshakeSend) >= 250 * MILLISECOND {
      var packet := if p.link.initialPacket.Some? then p.link.initialPacket.value else Punch;
      ChannelSteps.ControlStep(s, packet);
      ThenClocks(s, Effect(p, [packet], [], None), p.clocks.(lastHandshakeSend := now));
    } else if p.link.transport.Some? && !p.link.connected
              && Since(now, p.clocks.lastReadySend) >= 500 * MILLISECOND {
      SealedAlone(s, Ready(p.id.localNickname));
      var f := Seal(p, Encode(Ready(p.id.localNickname)));
      ThenClocks(s, f, f.peer.clocks.(lastReadySend := now));
    } else {
      ChannelSteps.Idle(s);
    }
  }

  lemma HeartbeatStep(s: Side, now: Instant)
    requires SideInv(s) && s.status == Live
    ensures
      var t := Advance(s, SendHeartbeat(s.peer, now));
      SideInv(t) && Grows(s, t)
  {
    var p := s.peer;
    assert Handshaked(p);
    hide SideInv, Grows;
    if p.link.connected && Since(now, p.clocks.lastHeartbeatSend) >= 30 * SECOND {
      SealedAlone(s, Heartbeat);
      var f := Seal(p, Encode(Heartbeat));
      ThenClocks(s, f, f.peer.clocks.(lastHeartbeatSend := now));
    } else {
      ChannelSteps.Idle(s);
    }
  }

  // --- Ticks ---------------------------------------------------------------------------

  /** Repeating the handshake and the heartbeat leaves the messages and the link alone. */
  lemma UpkeepFrame(p: Peer, now: Instant)
    ensures
      var e := Handshake(p, now);
      && e.events == [] && e.peer.id == p.id && e.peer.link == p.link && e.peer.outbox == p.outbox
      && e.peer.inbox == p.inbox && e.peer.replay == p.replay && e.peer.lastIpv4Retry == p.lastIpv4Retry
    ensures
      var e := SendHeartbeat(p, now);
      && e.events == [] && e.peer.id == p.id && e.peer.link == p.link && e.peer.outbox == p.outbox
      && e.peer.inbox == p.inbox && e.peer.replay == p.replay && e.peer.lastIpv4Retry == p.lastIpv4Retry
  {
    SealShape(p, Encode(Ready(p.id.localNickname)));
    SealShape(p, Encode(Heartbeat));
    hide Seal, Encode;
  }

  /** Only a connected peer has ever announced a message. */
  lemma DueNeedsTransport(s: Side, due: seq<u64>, now: Instant)
    requires SideInv(s) && s.status != Broken && AllDue(s.peer, due, now) && due != []
    ensures s.peer.link.transport.Some?
  {
    assert due[0] in due;
    assert PendingEntry(s, due[0]);
  }

  lemma RetriesStep(s: Side, due: seq<u64>, now: Instant)
    requires SideInv(s) && s.status == Live && AllDue(s.peer, due, now)
    ensures
      var t := Advance(s, RetryAll(s.peer, due, now));
      SideInv(t) && Grows(s, t)
  {
    hide SideInv, Grows;
    if due == [] {
      ChannelSteps.Idle(s);
    } else {
      DueNeedsTransport(s, due, now);
      RetryAllStep(s, due, now);
    }
  }

  lemma MaintainStep(s: Side, due: seq<u64>, now: Instant)
    requires SideInv(s) && s.status == Live && AllDue(s.peer, due, now)
    ensures
      var t := Advance(s, Maintain(s.peer, due, now).effect);
      SideInv(t) && Grows(s, t)
  {
    hide SideInv, Grows;
    var e := Handshake(s.peer, now);
    var t := Advance(s, e);
    HandshakeStep(s, now);
    UpkeepFrame(s.peer, now);
    if e.error.None? && !(e.peer.link.connected && Since(now, e.peer.clocks.lastReceived) > 90 * SECOND) {
      var f := SendHeartbeat(e.peer, now);
      var u := Advance(t, f);
      HeartbeatStep(t, now);
      UpkeepFrame(e.peer, now);
      AdvanceTwice(s, e, f);
      GrowsThrough(s, t, u);
      if f.error.None? {
        var g := RetryAll(f.peer, due, now);
        RetriesStep(u, due, now);
        AdvanceTwice(s, e.Then(f), g);
        GrowsThrough(s, u, Advance(u, g));
      }
    }
  }

  lemma AskStep(s: Side, now: Instant)
    requires SideInv(s) && s.status == Live && s.peer.id.startedAt <= now
    requires s.asked != [] ==> s.asked[|s.asked| - 1] <= now
    requires ConnectionAction(s.peer, now).1 == RetryIpv4
    ensures
      var t := s.(peer := s.peer.(lastIpv4Retry := Some(now)), asked := s.asked + [now]);
      SideInv(t) && Grows(s, t)
  {
    var t := s.(peer := s.peer.(lastIpv4Retry := Some(now)), asked := s.asked + [now]);
    AskKeepsAsks(s, t, now);
    hide Asks;
    AskKeepsRest(s, t);
  }

  lemma AskKeepsAsks(s: Side, t: Side, now: Instant)
    requires Asks(s) && s.peer.id.startedAt <= now && (s.asked != [] ==> s.asked[|s.asked| - 1] <= now)
    requires ConnectionAction(s.peer, now).1 == RetryIpv4
    requires t == s.(peer := s.peer.(lastIpv4Retry := Some(now)), asked := s.asked + [now])
    ensures Asks(t)
  {
  }

  lemma AskKeepsRest(s: Side, t: Side)
    requires SideInv(s) && s.status == Live && Asks(t)
    requires t == s.(peer := s.peer.(lastIpv4Retry := t.peer.lastIpv4Retry), asked := t.asked)
    ensures SideInv(t) && Grows(s, t)
  {
    hide Traffic, Receipts, AnnouncedInOrder, Accounts, Represents, Asks;
    assert s.events == s.events + [] && s.sent == s.sent + [];
    TrafficStep(s, t, []);
    ConnectsFrame(s, t, []);
    ReceiptsFrame(s, t, []);
    AccountsFrame(s, t, [], []);
  }

  /** A status of a peer that is not broken may change to another such status. */
  lemma StatusDoesNotMatter(s: Side, status: Status)
    requires SideInv(s) && s.status != Broken && status != Broken
    ensures SideInv(s.(status := status)) && Grows(s, s.(status := status))
  {
    var t := s.(status := status);
    hide Traffic, Receipts, AnnouncedInOrder, Accounts, Represents, Asks;
    assert s.events == s.events + [] && s.sent == s.sent + [];
    TrafficStep(s, t, []);
    ConnectsFrame(s, t, []);
    ReceiptsFrame(s, t, []);
    AccountsFrame(s, t, [], []);
    CloseKeepsAsks(s, t);
  }

  lemma EnumeratedAreDue(p: Peer, due: seq<u64>, now: Instant)
    requires Enumerates(due, DueIds(p, now))
    ensures AllDue(p, due, now)
  {
  }

  lemma TickStep(s: Side, due: seq<u64>, now: Instant)
    requires SideInv(s) && s.status == Live && s.peer.id.startedAt <= now
    requires s.asked != [] ==> s.asked[|s.asked| - 1] <= now
    requires Enumerates(due, DueIds(s.peer, now))
    ensures
      var t := TickAt(s, due, now);
      SideInv(t) && Grows(s, t)
  {
    hide SideInv, Grows, Maintain;
    EnumeratedAreDue(s.peer, due, now);
    var (q, action) := ConnectionAction(s.peer, now);
    ChannelSteps.Idle(s);
    if action == RetryIpv4 {
      AskStep(s, now);
      assert s.sent + [] == s.sent && s.events + [] == s.events;
    } else if action == HandshakeTimedOut {
      StatusDoesNotMatter(s, Ending);
    } else {
      var r := Maintain(s.peer, due, now);
      var t := Advance(s, r.effect);
      MaintainStep(s, due, now);
      MaintainAction(s.peer, due, now);
      if r.action == ConnectionLost {
        StatusDoesNotMatter(t, Ending);
        GrowsThrough(s, t, t.(status := Ending));
      }
    }
  }

  lemma MaintainAction(p: Peer, due: seq<u64>, now: Instant)
    ensures
      var r := Maintain(p, due, now);
      r.action == Continue || (r.action == ConnectionLost && r.effect.error.None?)
  {
  }

  // --- Closing -------------------------------------------------------------------------

  lemma FailuresSettle(s: Side, order: seq<u64>)
    requires Accounts(s) && Enumerates(order, s.peer.outbox.pending.Keys)
    ensures SettledOnce(s.events + Failures(order))
    ensures forall id | id in order :: Settled(s.events + Failures(order), id)
  {
    var all := s.events + Failures(order);
    forall k | |s.events| <= k < |all| ensures all[k] == MessageFailed(order[k - |s.events|]) {
    }
    forall i, j | 0 <= i < j < |all| && IsFinal(all[i]) && IsFinal(all[j]) ensures all[i].id != all[j].id {
      if i < |s.events| <= j {
        var id := order[j - |s.events|];
        assert id in order;
        assert PendingEntry(s, id);
        assert all[i] in s.events;
      }
    }
    forall id | id in order ensures Settled(all, id) {
      var k :| 0 <= k < |order| && order[k] == id;
      assert all[|s.events| + k] == MessageFailed(id);
    }
  }

  lemma CloseAccounts(s: Side, order: seq<u64>)
    requires Accounts(s) && Enumerates(order, s.peer.outbox.pending.Keys)
    ensures Accounts(CloseAt(s, order))
  {
    var t := CloseAt(s, order);
    FailuresSettle(s, order);
    assert t.sent == s.sent;
    forall n: u64 | 1 <= n < t.peer.outbox.nextMessageId ensures Settled(t.events, n) {
      if n in s.peer.outbox.pending {
        assert n in order;
      } else {
        assert Settled(s.events, n);
      }
    }
    forall e | e in t.events && IsFinal(e) ensures e.id < t.peer.outbox.nextMessageId {
      if e !in s.events {
        var k :| 0 <= k < |order| && Failures(order)[k] == e;
        assert order[k] in order;
        assert PendingEntry(s, order[k]);
      }
    }
  }

  lemma CloseStep(s: Side, order: seq<u64>)
    requires SideInv(s) && s.status != Broken && Enumerates(order, s.peer.outbox.pending.Keys)
    ensures
      var t := CloseAt(s, order);
      SideInv(t) && Grows(s, t)
  {
    hide Traffic, Receipts, AnnouncedInOrder, Accounts, Represents, Asks;
    var t := CloseAt(s, order);
    assert s.sent + [] == s.sent;
    assert forall e | e in Failures(order) :: e.MessageFailed?;
    TrafficStep(s, t, []);
    AnnouncedFrame(s.events, Failures(order));
    CloseAccounts(s, order);
    ConnectsFrame(s, t, Failures(order));
    ReceiptsFrame(s, t, Failures(order));
    assert Asks(t) by {
      CloseKeepsAsks(s, t);
    }
  }

  lemma CloseKeepsAsks(s: Side, t: Side)
    requires Asks(s) && t.asked == s.asked && t.peer.id == s.peer.id && t.peer.lastIpv4Retry == s.peer.lastIpv4Retry
    ensures Asks(t)
  {
  }
}
