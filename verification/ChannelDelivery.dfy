/** What one exchange of packets that goes through achieves: a repeated message is delivered,
    a repeated INIT completes the handshake. */
module ChannelDelivery {
  import opened Prelude
  import opened Plaintext
  import opened PeerModel
  import opened Channel
  import opened ChannelInvariant
  import ChannelFrames
  import ChannelSends
  import ChannelTicks
  import ChannelPairs
  import ChannelTheorems
  import opened ChannelProgress
  import ChannelSteps

  // --- Messages ------------------------------------------------------------------------

  /** A fresh message is acknowledged, and shown unless it is remembered. */
  lemma MessageIsAnswered(r: Side, s: Side, from: Peer, id: u64, text: string, now: Instant)
    requires SideInv(r) && PairInv(r, s) && PairInv(s, r)
    requires r.peer.link.transport.Some? && s.peer.link.transport.Some?
    requires from.link.transport == s.peer.link.transport && from.id == s.peer.id
    requires forall n | n in r.accepted :: n < from.sendSequence
    requires IsMessageText(text) && AllowPacket(r.peer, now).1 && r.status == Live && r.peer.sendSequence < MAX_U64
    ensures
      var t := ArriveAt(r, NextSealed(from, Message(id, text)), now);
      && t.status == Live
      && t.sent == r.sent + [NextSealed(r.peer, MessageAck(id))]
      && t.events == r.events + Deliver(r.peer, id, text).events
      && t.peer.id == r.peer.id && t.peer.link == r.peer.link && t.peer.outbox == r.peer.outbox
      && t.peer.sendSequence == r.peer.sendSequence + 1
      && t.peer.clocks == AllowPacket(r.peer, now).0.clocks.(lastReceived := now)
  {
    hide SideInv, PairInv, Encode, IsMessageText, AllowPacket, Receive;
    var q := FreshArrives(r, s, from, Message(id, text), now);
    MessageHandled(q, id, text);
  }

  lemma MessageHandled(q: Peer, id: u64, text: string)
    requires q.link.transport.Some? && q.sendSequence < MAX_U64
    ensures
      var e, d := HandlePlain(q, Message(id, text)), Deliver(q, id, text);
      && e.error.None? && e.sent == [NextSealed(q, MessageAck(id))] && e.events == d.events
      && e.peer == q.(sendSequence := q.sendSequence + 1, inbox := d.peer.inbox)
  {
    ChannelFrames.SealFailsOnlyAtTheEnd(q, MessageAck(id));
    hide Encode, Remember;
  }

  /** A fresh acknowledgement settles its message. */
  lemma AckSettles(s: Side, r: Side, from: Peer, id: u64, now: Instant)
    requires SideInv(s) && PairInv(s, r) && PairInv(r, s)
    requires r.peer.link.transport.Some? && s.peer.link.transport.Some?
    requires from.link.transport == r.peer.link.transport && from.id == r.peer.id
    requires forall n | n in s.accepted :: n < from.sendSequence
    requires AllowPacket(s.peer, now).1 && s.status == Live && id in s.peer.outbox.pending
    ensures
      var t := ArriveAt(s, NextSealed(from, MessageAck(id)), now);
      && t.status == Live && t.sent == s.sent
      && t.events == s.events + [MessageDelivered(id)]
      && t.peer.id == s.peer.id && t.peer.link == s.peer.link && t.peer.sendSequence == s.peer.sendSequence
      && t.peer.outbox == s.peer.outbox.(pending := s.peer.outbox.pending - {id})
      && t.peer.clocks == AllowPacket(s.peer, now).0.clocks.(lastReceived := now)
  {
    hide SideInv, PairInv, Encode, AllowPacket, Receive;
    var q := FreshArrives(s, r, from, MessageAck(id), now);
    assert s.sent + [] == s.sent;
  }

  /** Every due message that may still be repeated is, under a sequence not used before. */
  lemma {:induction false} RetriesTransmit(p: Peer, due: seq<u64>, now: Instant, id: u64) returns (n: u64)
    requires ChannelSends.AllDue(p, due, now) && RetryAll(p, due, now).error.None?
    requires id in due && p.outbox.pending[id].retries < 4 && p.link.transport.Some?
    ensures p.sendSequence <= n
    ensures NextSealed(p.(sendSequence := n), Message(id, p.outbox.pending[id].text)) in RetryAll(p, due, now).sent
    ensures id in RetryAll(p, due, now).peer.outbox.pending
  {
    hide NextSealed, RetryOne;
    var front, last := due[..|due| - 1], due[|due| - 1];
    var e := RetryAll(p, front, now);
    ChannelSends.AllDueFront(p, due, now);
    ChannelSends.RetryAllFrame(p, front, now);
    RetriesRaiseSequence(p, front, now);
    ChannelSends.RetryOneFrame(e.peer, last, now);
    assert due == front + [last];
    if id == last {
      OneTransmits(e.peer, id, now);
      n := e.peer.sendSequence;
      SealedAlike(e.peer, p.(sendSequence := n), Message(id, p.outbox.pending[id].text));
    } else {
      n := RetriesTransmit(p, front, now, id);
    }
  }

  lemma SealedAlike(p: Peer, q: Peer, plain: Plain)
    requires p.link == q.link && p.id == q.id && p.sendSequence == q.sendSequence && p.link.transport.Some?
    ensures NextSealed(p, plain) == NextSealed(q, plain)
  {
  }

  lemma {:induction false} RetriesRaiseSequence(p: Peer, due: seq<u64>, now: Instant)
    ensures p.sendSequence <= RetryAll(p, due, now).peer.sendSequence
  {
    if due != [] {
      var front, id := due[..|due| - 1], due[|due| - 1];
      RetriesRaiseSequence(p, front, now);
      ChannelSends.RetryOneFrame(RetryAll(p, front, now).peer, id, now);
    }
  }

  lemma OneTransmits(p: Peer, id: u64, now: Instant)
    requires id in p.outbox.pending && p.outbox.pending[id].retries < 4 && p.link.transport.Some?
    requires RetryOne(p, id, now).error.None?
    ensures RetryOne(p, id, now).sent == [NextSealed(p, Message(id, p.outbox.pending[id].text))]
    ensures id in RetryOne(p, id, now).peer.outbox.pending
  {
    hide Encode;
    ChannelSends.RepeatShape(p, id, now);
  }

  lemma UpkeepRaisesSequence(p: Peer, now: Instant)
    ensures p.sendSequence <= Handshake(p, now).peer.sendSequence
    ensures p.sendSequence <= SendHeartbeat(p, now).peer.sendSequence
  {
    ChannelFrames.SealShape(p, Encode(Ready(p.id.localNickname)));
    ChannelFrames.SealShape(p, Encode(Heartbeat));
    hide Seal, Encode;
  }

  lemma TickTransmits(s: Side, due: seq<u64>, now: Instant, id: u64) returns (n: u64)
    requires Enumerates(due, DueIds(s.peer, now)) && s.peer.link.transport.Some?
    requires var r := PeerModel.Tick(s.peer, due, now); r.action == Continue && r.effect.error.None?
    requires id in due && s.peer.outbox.pending[id].retries < 4
    ensures s.peer.sendSequence <= n
    ensures
      var t := TickAt(s, due, now);
      && NextSealed(s.peer.(sendSequence := n), Message(id, s.peer.outbox.pending[id].text)) in t.sent
      && id in t.peer.outbox.pending && t.peer.link == s.peer.link && t.peer.id == s.peer.id && t.accepted == s.accepted
  {
    ChannelTicks.EnumeratedAreDue(s.peer, due, now);
    ChannelPairs.TickLearnsNothing(s.peer, due, now);
    hide Handshake, SendHeartbeat, RetryAll, NextSealed, Enumerates;
    var p := s.peer;
    var q := ConnectionAction(p, now).0;
    var e := Handshake(q, now);
    var f := e.Then(SendHeartbeat(e.peer, now));
    ChannelTicks.UpkeepFrame(q, now);
    ChannelTicks.UpkeepFrame(e.peer, now);
    UpkeepRaisesSequence(q, now);
    UpkeepRaisesSequence(e.peer, now);
    assert f.peer.outbox == p.outbox;
    n := RetriesTransmit(f.peer, due, now, id);
    SealedAlike(f.peer.(sendSequence := n), p.(sendSequence := n), Message(id, p.outbox.pending[id].text));
  }

  /** The steps of one repetition: a tick at `who` repeats message `id`, the other side
      answers, and the acknowledgement arrives. */
  datatype Repetition = Repetition(who: Party, due: seq<u64>, id: u64, repeated: Instant, answered: Instant, arrived: Instant) {
    function Repeat(): Step {
      Tick(who, due, repeated)
    }

    /** The tick repeats the message. */
    ghost predicate Repeats(sys: System) {
      var s := sys.Get(who);
      && Enabled(sys, Repeat())
      && (var r := PeerModel.Tick(s.peer, due, repeated); r.action == Continue && r.effect.error.None?)
      && id in due && id in s.peer.outbox.pending && s.peer.outbox.pending[id].retries < 4
    }

    /** The other side can take the message and answer it, and the answer can be taken. */
    ghost predicate GoesThrough(sys: System) {
      var s, r := sys.Get(who), sys.Get(who.Other());
      && s.peer.link.transport.Some? && r.peer.link.transport.Some?
      && r.status == Live && r.peer.sendSequence < MAX_U64
      && repeated <= answered <= arrived && r.peer.id.startedAt <= answered
      && AllowPacket(r.peer, answered).1 && AllowPacket(TickAt(s, due, repeated).peer, arrived).1
    }
  }

  /** The repeated message and its acknowledgement, as they travel. */
  datatype Travelled = Travelled(message: Packet, ack: Packet)

  /** A pending message whose next repetition and acknowledgement go through is reported
      delivered. */
  lemma RepeatedMessageIsDelivered(p: Pairing, sys: System, m: Repetition) returns (travelled: Travelled)
    requires Reachable(p, sys) && m.Repeats(sys) && m.GoesThrough(sys)
    ensures
      var sys1 := Apply(sys, m.Repeat());
      var arrive := Arrive(m.who.Other(), travelled.message, m.answered);
      var sys2 := Apply(sys1, arrive);
      var return_ := Arrive(m.who, travelled.ack, m.arrived);
      var s := Apply(sys2, return_).Get(m.who);
      && Enabled(sys1, arrive) && Enabled(sys2, return_)
      && MessageDelivered(m.id) in s.events && m.id !in s.peer.outbox.pending
  {
    hide SideInv, PairInv, Reachable, ChannelPairs.SystemInv, TickAt, ArriveAt, AllowPacket, NextSealed;
    hide DueIds, Enumerates, PeerModel.Tick, IsMessageText, Deliver;
    var s, r := sys.Get(m.who), sys.Get(m.who.Other());
    var text := s.peer.outbox.pending[m.id].text;
    var sys1 := Apply(sys, m.Repeat());
    var s1 := TickAt(s, m.due, m.repeated);
    ChannelTheorems.ReachableInv(p, sys);
    ChannelPairs.ApplyKeepsInv(sys, m.Repeat());
    SidesOf(sys, m.who);
    SidesOf(sys1, m.who);
    TextOfPending(s, m.id);
    var n := TickTransmits(s, m.due, m.repeated, m.id);
    TickStaysLive(s, m.due, m.repeated);
    AcceptedIsOlder(r, s);
    AcceptedIsOlder(s1, r);
    var from := s.peer.(sendSequence := n);
    MessageIsAnswered(r, s1, from, m.id, text, m.answered);
    AckSettles(s1, r, r.peer, m.id, m.arrived);
    travelled := Travelled(NextSealed(from, Message(m.id, text)), NextSealed(r.peer, MessageAck(m.id)));
  }

  lemma TextOfPending(s: Side, id: u64)
    requires SideInv(s) && s.status == Live && id in s.peer.outbox.pending
    ensures IsMessageText(s.peer.outbox.pending[id].text)
  {
    assert Accounts(s);
    hide SideInv, Accounts;
    ChannelSends.PendingText(s, id);
  }

  lemma TickStaysLive(s: Side, due: seq<u64>, now: Instant)
    requires s.status == Live
    requires var r := PeerModel.Tick(s.peer, due, now); r.action == Continue && r.effect.error.None?
    ensures TickAt(s, due, now).status == Live
  {
    hide PeerModel.Tick;
  }

  // --- The handshake -------------------------------------------------------------------

  lemma TickRepeatsInit(s: Side, due: seq<u64>, now: Instant)
    requires Handshaked(s.peer) && s.peer.id.initiator && s.peer.link.transport.None? && s.status == Live
    requires Since(now, s.peer.clocks.lastHandshakeSend) >= 250 * MILLISECOND
    requires var r := PeerModel.Tick(s.peer, due, now); r.action == Continue && r.effect.error.None?
    ensures
      var t := TickAt(s, due, now);
      Init(Hello(s.peer.id.context, s.peer.id.key)) in t.sent && t.status == Live && t.peer.link == s.peer.link && t.peer.id == s.peer.id
  {
    hide Handshaked, Handshake, SendHeartbeat, RetryAll;
    var q := ConnectionAction(s.peer, now).0;
    var r := PeerModel.Tick(s.peer, due, now);
    ChannelPairs.TickLearnsNothing(s.peer, due, now);
    InitIsRepeated(s.peer, q, now);
    assert r.effect.sent[0] == Handshake(q, now).sent[0];
    assert (s.sent + r.effect.sent)[|s.sent|] == r.effect.sent[0];
  }

  lemma InitIsRepeated(p: Peer, q: Peer, now: Instant)
    requires Handshaked(p) && p.id.initiator && p.link.transport.None?
    requires Since(now, p.clocks.lastHandshakeSend) >= 250 * MILLISECOND
    requires q == p.(lastIpv4Retry := q.lastIpv4Retry)
    ensures Handshake(q, now).sent == [Init(Hello(p.id.context, p.id.key))]
  {
    hide SendReady;
  }

  /** A responder that is past the handshake answers a repeated INIT with the RESPONSE it kept
      and is otherwise as before. */
  lemma InitIsAnswered(r: Side, hello: Hello, now: Instant)
    requires Handshaked(r.peer) && !r.peer.id.initiator && r.peer.link.transport.Some? && r.status == Live
    requires AllowPacket(r.peer, now).1
    ensures
      var t := ArriveAt(r, Init(hello), now);
      && t.status == Live && t.peer.link == r.peer.link && t.peer.id == r.peer.id && t.accepted == r.accepted
      && Response(Reply(r.peer.link.transport.value)) in t.sent
  {
    hide AllowPacket, SendReady;
    var q := AllowPacket(r.peer, now).0;
    assert q == r.peer.(clocks := q.clocks) by {
      AllowKeepsRest(r.peer, now);
    }
  }

  lemma AllowKeepsRest(p: Peer, now: Instant)
    ensures var q := AllowPacket(p, now).0; q == p.(clocks := q.clocks)
  {
  }

  lemma ResponseAdopts(s: Side, session: PeerModel.Session, now: Instant)
    requires Handshaked(s.peer) && s.peer.id.initiator && s.peer.link.transport.None? && s.status == Live
    requires session.context == s.peer.id.context && session.initiatorKey == s.peer.id.key
    requires AllowPacket(s.peer, now).1
    ensures
      var t := ArriveAt(s, Response(Reply(session)), now);
      t.status == Live && t.peer.link.transport == Some(session)
  {
    hide AllowPacket, SendReady;
    var q := AllowPacket(s.peer, now).0;
    AllowKeepsRest(s.peer, now);
    var p := q.(clocks := q.clocks.(lastReceived := now));
    ChannelSteps.FirstReady(Adopted(p, session, p.link.responsePacket), now);
  }

  /** What the kept RESPONSE is for: an initiator whose handshake is not done, facing a
      responder whose is, adopts their common session once one repeated INIT and the RESPONSE
      it draws go through. */
  lemma RepeatedInitCompletes(p: Pairing, sys: System, due: seq<u64>, repeated: Instant, answered: Instant, arrived: Instant)
    requires Reachable(p, sys) && Enabled(sys, Tick(Initiator, due, repeated))
    requires
      var s, r := sys.initiator, sys.responder;
      && s.peer.link.transport.None? && r.peer.link.transport.Some? && r.status == Live
      && Since(repeated, s.peer.clocks.lastHandshakeSend) >= 250 * MILLISECOND
      && (var e := PeerModel.Tick(s.peer, due, repeated); e.action == Continue && e.effect.error.None?)
      && repeated <= answered <= arrived && r.peer.id.startedAt <= answered
      && AllowPacket(r.peer, answered).1 && AllowPacket(TickAt(s, due, repeated).peer, arrived).1
    ensures
      var s, r := sys.initiator.peer, sys.responder.peer;
      var init, response := Init(Hello(s.id.context, s.id.key)), Response(Reply(r.link.transport.value));
      var sys1 := Apply(sys, Tick(Initiator, due, repeated));
      var sys2 := Apply(sys1, Arrive(Responder, init, answered));
      var sys3 := Apply(sys2, Arrive(Initiator, response, arrived));
      && Enabled(sys1, Arrive(Responder, init, answered)) && Enabled(sys2, Arrive(Initiator, response, arrived))
      && sys3.initiator.peer.link.transport == sys3.responder.peer.link.transport == r.link.transport
  {
    hide SideInv, PairInv, Reachable, ChannelPairs.SystemInv, TickAt, ArriveAt, AllowPacket, DueIds, Enumerates, PeerModel.Tick;
    var s, r := sys.initiator, sys.responder;
    ChannelTheorems.ReachableInv(p, sys);
    SidesOf(sys, Initiator);
    ChannelPairs.ApplyKeepsInv(sys, Tick(Initiator, due, repeated));
    Ends(sys);
    Ends(Apply(sys, Tick(Initiator, due, repeated)));
    TickRepeatsInit(s, due, repeated);
    var s1 := TickAt(s, due, repeated);
    InitIsAnswered(r, Hello(s.peer.id.context, s.peer.id.key), answered);
    ResponseAdopts(s1, r.peer.link.transport.value, arrived);
  }

  /** Both ends have followed the handshake, and the responder's session is the common one. */
  lemma Ends(sys: System)
    requires ChannelPairs.SystemInv(sys)
    ensures
      var s, r := sys.initiator.peer, sys.responder.peer;
      && Handshaked(s) && Handshaked(r) && s.id.initiator && !r.id.initiator
      && (r.link.transport.Some? ==>
            r.link.transport.value.context == s.id.context && r.link.transport.value.initiatorKey == s.id.key)
  {
    hide Handshaked, Connects, Traffic, Receipts, AnnouncedInOrder, Accounts, Asks, ChannelPairs.Timely;
  }
}
