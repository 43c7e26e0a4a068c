/** A complete run of two peers in which a message is delivered twice: at-most-once delivery
    holds within a window only. Every pairing has such a run. */
module ChannelCounterexample {
  import opened Prelude
  import opened Protocol
  import opened Plaintext
  import opened PeerModel
  import opened Channel
  import opened ChannelInvariant
  import ChannelFrames
  import ChannelSteps
  import opened ChannelPairs
  import opened ChannelTheorems
  import opened ChannelProgress
  import opened ChannelDelivery
  import ChannelTicks
  import Utf8

  // --- Extending a run -----------------------------------------------------------------

  lemma Extends(p: Pairing, sys: System, step: Step)
    requires Reachable(p, sys) && Enabled(sys, step)
    ensures Reachable(p, Apply(sys, step))
  {
    hide Start, Enabled, Apply;
    var states, steps :| IsRunOf(p, states, steps) && states[|steps|] == sys;
    var states2, steps2 := states + [Apply(sys, step)], steps + [step];
    forall i | 0 <= i < |steps2| ensures Leads(states2, steps2, i) {
      if i < |steps| {
        assert Leads(states, steps, i);
      }
    }
    assert IsRunOf(p, states2, steps2) && states2[|steps2|] == Apply(sys, step);
  }

  lemma Starts(p: Pairing)
    requires p.Valid()
    ensures Reachable(p, Start(p))
  {
    hide Start;
    assert IsRunOf(p, [Start(p)], []);
  }

  // --- The packet limit ----------------------------------------------------------------

  /** Messages follow each other at this distance. */
  const GAP: int := 12 * MILLISECOND

  /** No more packets since the counter was reset than one each 12 ms, and a few. */
  predicate Unhurried(p: Peer, now: Instant, few: nat) {
    && p.clocks.rateStarted <= now
    && p.clocks.packetsThisSecond * GAP <= now - p.clocks.rateStarted + few * GAP
  }

  lemma UnhurriedIsAllowed(p: Peer, now: Instant, few: nat)
    requires Unhurried(p, now, few) && few <= 10
    ensures AllowPacket(p, now).1 && Unhurried(AllowPacket(p, now).0, now, few + 1)
  {
  }

  lemma WaitingIsUnhurried(p: Peer, now: Instant, few: nat)
    requires Unhurried(p, now, few + 1)
    ensures Unhurried(p, now + GAP, few)
  {
  }

  // --- Connecting ----------------------------------------------------------------------

  /** A side on its way to a connection, at the time `now`, after it has sealed `n` packets
      and accepted those given. */
  ghost predicate Early(s: Side, n: u64, accepted: set<u64>, now: Instant, few: nat) {
    && s.status == Live
    && s.peer.sendSequence == n
    && s.accepted == accepted
    && s.peer.outbox == Outbox(map[], 1)
    && (forall e | e in s.events :: e.PeerConnected?)
    && s.peer.id.startedAt <= now
    && s.peer.clocks.lastReceived <= now
    && Unhurried(s.peer, now, few)
  }

  lemma PunchDrawsInit(s: Side, now: Instant)
    requires Early(s, 0, {}, now, 0) && Handshaked(s.peer) && s.peer.id.initiator
    ensures
      var t := ArriveAt(s, Punch, now);
      && Early(t, 0, {}, now, 1) && t.peer.link == s.peer.link && t.peer.id == s.peer.id
      && Init(Hello(s.peer.id.context, s.peer.id.key)) in t.sent
  {
    hide AllowPacket;
    UnhurriedIsAllowed(s.peer, now, 0);
    AllowKeepsRest(s.peer, now);
  }

  lemma InitDrawsReady(s: Side, key: Key, now: Instant)
    requires Early(s, 0, {}, now, 0) && Handshaked(s.peer) && !s.peer.id.initiator && s.peer.link.transport.None?
    ensures
      var session := PeerModel.Session(s.peer.id.context, key, s.peer.id.key);
      var t := ArriveAt(s, Init(Hello(s.peer.id.context, key)), now);
      && Early(t, 1, {}, now, 1) && t.peer.id == s.peer.id && t.peer.link.transport == Some(session)
      && t.peer.link.readyAcked == s.peer.link.readyAcked && t.peer.link.connected == s.peer.link.connected
      && Response(Reply(session)) in t.sent
      && NextSealed(t.peer.(sendSequence := 0), Ready(s.peer.id.localNickname)) in t.sent
  {
    hide AllowPacket, Encode, IsNickname;
    UnhurriedIsAllowed(s.peer, now, 0);
    AllowKeepsRest(s.peer, now);
    var q := AllowPacket(s.peer, now).0;
    var r := q.(clocks := q.clocks.(lastReceived := now));
    var session := PeerModel.Session(s.peer.id.context, key, s.peer.id.key);
    var a := Adopted(r, session, Some(Response(Reply(session))));
    ChannelSteps.FirstReady(a, now);
    ReadyIsFirst(a, now);
    var t := ArriveAt(s, Init(Hello(s.peer.id.context, key)), now);
    assert t.sent == s.sent + [Response(Reply(session)), NextSealed(a, Ready(s.peer.id.localNickname))];
    SealedAlike(a, t.peer.(sendSequence := 0), Ready(s.peer.id.localNickname));
  }

  lemma ReadyIsFirst(p: Peer, now: Instant)
    requires p.link.transport.Some? && p.sendSequence == 0 && SendReady(p, now).error.None?
    ensures SendReady(p, now).sent == [NextSealed(p, Ready(p.id.localNickname))]
  {
    hide Encode;
  }

  lemma ResponseDrawsReady(s: Side, session: PeerModel.Session, now: Instant)
    requires Early(s, 0, {}, now, 1) && Handshaked(s.peer) && s.peer.id.initiator && s.peer.link.transport.None?
    requires session.context == s.peer.id.context && session.initiatorKey == s.peer.id.key
    ensures
      var t := ArriveAt(s, Response(Reply(session)), now);
      && Early(t, 1, {}, now, 2) && t.peer.id == s.peer.id && t.peer.link.transport == Some(session)
      && t.peer.link.readyAcked == s.peer.link.readyAcked && t.peer.link.connected == s.peer.link.connected
      && NextSealed(t.peer.(sendSequence := 0), Ready(s.peer.id.localNickname)) in t.sent
  {
    hide AllowPacket, Encode, IsNickname;
    UnhurriedIsAllowed(s.peer, now, 1);
    AllowKeepsRest(s.peer, now);
    var q := AllowPacket(s.peer, now).0;
    var r := q.(clocks := q.clocks.(lastReceived := now));
    var a := Adopted(r, session, r.link.responsePacket);
    ChannelSteps.FirstReady(a, now);
    ReadyIsFirst(a, now);
    var t := ArriveAt(s, Response(Reply(session)), now);
    assert t.sent == s.sent + [NextSealed(a, Ready(s.peer.id.localNickname))];
    SealedAlike(a, t.peer.(sendSequence := 0), Ready(s.peer.id.localNickname));
  }

  lemma ReadyHandled(q: Peer, nickname: string)
    requires q.link.transport.Some? && q.sendSequence < MAX_U64 && !q.link.readyAcked
    ensures
      var e := HandlePlain(q, Ready(nickname));
      && e.error.None? && e.events == [] && e.sent == [NextSealed(q, ReadyAck)]
      && e.peer == q.(sendSequence := q.sendSequence + 1,
                      link := q.link.(readyReceived := true, peerNickname := Some(nickname)))
  {
    var p := q.(link := q.link.(peerNickname := Some(nickname), readyReceived := true));
    ChannelFrames.SealFailsOnlyAtTheEnd(p, ReadyAck);
    hide Encode;
  }

  /** A first READY is taken and acknowledged. */
  lemma ReadyIsTaken(s: Side, o: Side, from: Peer, now: Instant, few: nat)
    requires SideInv(s) && PairInv(s, o) && PairInv(o, s) && IsNickname(o.peer.id.localNickname)
    requires s.peer.link.transport.Some? && o.peer.link.transport.Some? && !s.peer.link.readyAcked
    requires from.link.transport == o.peer.link.transport && from.id == o.peer.id && from.sendSequence == 0
    requires Early(s, 1, {}, now, few) && few <= 10
    ensures
      var t := ArriveAt(s, NextSealed(from, Ready(o.peer.id.localNickname)), now);
      && Early(t, 2, {0}, now, few + 1) && t.peer.id == s.peer.id
      && t.peer.link == s.peer.link.(readyReceived := true, peerNickname := Some(o.peer.id.localNickname))
      && NextSealed(t.peer.(sendSequence := 1), ReadyAck) in t.sent
  {
    hide SideInv, PairInv, AllowPacket, Encode, IsNickname, Receive, Admits;
    UnhurriedIsAllowed(s.peer, now, few);
    var nickname := o.peer.id.localNickname;
    var q := FreshArrives(s, o, from, Ready(nickname), now);
    ReadyHandled(q, nickname);
    var t := ArriveAt(s, NextSealed(from, Ready(nickname)), now);
    assert t.sent == s.sent + [NextSealed(q, ReadyAck)];
    SealedAlike(s.peer, q, ReadyAck);
    assert t.events == s.events;
  }

  lemma AckHandled(q: Peer)
    requires q.link.readyReceived && q.link.peerNickname.Some? && !q.link.connected
    ensures
      var e := HandlePlain(q, ReadyAck);
      && e.error.None? && e.sent == [] && |e.events| == 1 && e.events[0].PeerConnected?
      && e.peer == q.(link := q.link.(readyAcked := true, connected := true))
  {
  }

  /** The acknowledgement of READY connects. */
  lemma ReadyAckConnects(s: Side, o: Side, from: Peer, now: Instant, few: nat)
    requires SideInv(s) && PairInv(s, o) && PairInv(o, s)
    requires s.peer.link.transport.Some? && o.peer.link.transport.Some?
    requires s.peer.link.readyReceived && s.peer.link.peerNickname.Some? && !s.peer.link.connected
    requires from.link.transport == o.peer.link.transport && from.id == o.peer.id && from.sendSequence == 1
    requires Early(s, 2, {0}, now, few) && few <= 10
    ensures
      var t := ArriveAt(s, NextSealed(from, ReadyAck), now);
      && Early(t, 2, {0, 1}, now, few + 1) && t.peer.id == s.peer.id
      && t.peer.link == s.peer.link.(readyAcked := true, connected := true)
  {
    hide SideInv, PairInv, AllowPacket, Encode, Receive, Admits;
    UnhurriedIsAllowed(s.peer, now, few);
    var q := FreshArrives(s, o, from, ReadyAck, now);
    AckHandled(q);
  }

  /** When both ends have started. */
  function Later(p: Pairing): Instant {
    if p.initiatorStart <= p.responderStart then p.responderStart else p.initiatorStart
  }

  lemma Begins(p: Pairing)
    requires p.Valid()
    ensures
      var sys := Start(p);
      && SystemInv(sys) && Early(sys.initiator, 0, {}, Later(p), 0) && Early(sys.responder, 0, {}, Later(p), 0)
      && sys.clock <= Later(p)
      && Unready(sys.initiator) && Unready(sys.responder) && !sys.responder.peer.id.initiator
      && sys.initiator.peer.id.context == sys.responder.peer.id.context
  {
    hide SystemInv;
    StartKeepsInv(p);
  }

  /** The handshake is still to come. */
  predicate Unready(s: Side) {
    s.peer.link.transport.None? && !s.peer.link.readyAcked && !s.peer.link.connected
  }

  /** A PUNCH draws INIT, INIT draws RESPONSE and READY, RESPONSE draws READY. */
  lemma Shakes(p: Pairing) returns (sys: System)
    requires p.Valid()
    ensures Reachable(p, sys) && sys.clock == Later(p)
    ensures Early(sys.initiator, 1, {}, Later(p), 2) && Early(sys.responder, 1, {}, Later(p), 1)
    ensures Shaken(sys.initiator) && Shaken(sys.responder)
  {
    hide Start, SystemInv, Early, Reachable, ArriveAt, NextSealed, Handshaked;
    var now := Later(p);
    Starts(p);
    Begins(p);
    sys := Start(p);
    var i, r := sys.initiator, sys.responder;
    InTime(i, 0, {}, now, 0);
    InTime(r, 0, {}, now, 0);
    Ends(sys);
    PunchDrawsInit(i, now);
    InitDrawsReady(r, i.peer.id.key, now);
    var i1, r1 := ArriveAt(i, Punch, now), ArriveAt(r, Init(Hello(i.peer.id.context, i.peer.id.key)), now);
    InTime(i1, 0, {}, now, 1);
    InTime(r1, 1, {}, now, 1);
    Extends(p, sys, Arrive(Initiator, Punch, now));
    sys := System(i1, r, now);
    ReachableInv(p, sys);
    Ends(sys);
    Extends(p, sys, Arrive(Responder, Init(Hello(i.peer.id.context, i.peer.id.key)), now));
    sys := System(i1, r1, now);
    var session := r1.peer.link.transport.value;
    ResponseDrawsReady(i1, session, now);
    Extends(p, sys, Arrive(Initiator, Response(Reply(session)), now));
    sys := System(ArriveAt(i1, Response(Reply(session)), now), r1, now);
  }

  /** The handshake is done and READY sent, under the first sequence. */
  ghost predicate Shaken(s: Side) {
    && s.peer.link.transport.Some? && !s.peer.link.readyAcked && !s.peer.link.connected
    && NextSealed(s.peer.(sendSequence := 0), Ready(s.peer.id.localNickname)) in s.sent
  }

  lemma InTime(s: Side, n: u64, accepted: set<u64>, now: Instant, few: nat)
    requires Early(s, n, accepted, now, few)
    ensures s.status == Live && s.peer.id.startedAt <= now && s.peer.sendSequence == n && s.accepted == accepted
  {
  }

  /** Both ends are connected and nothing else has happened. */
  ghost predicate JustConnected(p: Pairing, sys: System, now: Instant) {
    && Reachable(p, sys) && sys.clock == now
    && Early(sys.initiator, 2, {0, 1}, now, 4) && Early(sys.responder, 2, {0, 1}, now, 4)
    && sys.initiator.peer.link.connected && sys.responder.peer.link.connected
  }

  lemma SentStays(s: Side, packet: Packet, now: Instant, old_: Packet)
    requires old_ in s.sent
    ensures old_ in ArriveAt(s, packet, now).sent
  {
    hide Receive;
  }

  lemma NicknameOf(s: Side)
    requires SideInv(s)
    ensures IsNickname(s.peer.id.localNickname)
  {
  }

  lemma AFewMore(s: Side, n: u64, accepted: set<u64>, now: Instant, few: nat, more: nat)
    requires Early(s, n, accepted, now, few) && few <= more
    ensures Early(s, n, accepted, now, more)
  {
  }

  /** Each READY is taken and acknowledged. */
  lemma Greet(p: Pairing, sys: System, now: Instant) returns (v: System)
    requires Reachable(p, sys) && sys.clock == now
    requires Early(sys.initiator, 1, {}, now, 2) && Early(sys.responder, 1, {}, now, 1)
    requires Shaken(sys.initiator) && Shaken(sys.responder)
    ensures Reachable(p, v) && v.clock == now
    ensures Early(v.initiator, 2, {0}, now, 3) && Early(v.responder, 2, {0}, now, 2)
    ensures Greeted(v.initiator) && Greeted(v.responder)
  {
    hide SystemInv, SideInv, PairInv, Early, Reachable, ArriveAt, NextSealed, IsNickname;
    var i, r := sys.initiator, sys.responder;
    InTime(i, 1, {}, now, 2);
    InTime(r, 1, {}, now, 1);
    ReachableSides(p, sys, Initiator);
    NicknameOf(i);
    NicknameOf(r);
    var fromI, fromR := i.peer.(sendSequence := 0), r.peer.(sendSequence := 0);
    var readyI, readyR := NextSealed(fromI, Ready(i.peer.id.localNickname)), NextSealed(fromR, Ready(r.peer.id.localNickname));
    ReadyIsTaken(r, i, fromI, now, 1);
    SentStays(r, readyI, now, readyR);
    Extends(p, sys, Arrive(Responder, readyI, now));
    v := System(i, ArriveAt(r, readyI, now), now);
    ReachableSides(p, v, Initiator);
    ReadyIsTaken(i, v.responder, fromR, now, 2);
    Extends(p, v, Arrive(Initiator, readyR, now));
    v := System(ArriveAt(i, readyR, now), v.responder, now);
  }

  /** READY is taken and its acknowledgement sent, under the second sequence. */
  ghost predicate Greeted(s: Side) {
    && s.peer.link.transport.Some? && s.peer.link.readyReceived && s.peer.link.peerNickname.Some? && !s.peer.link.connected
    && NextSealed(s.peer.(sendSequence := 1), ReadyAck) in s.sent
  }

  /** Each acknowledgement connects. */
  lemma Connect(p: Pairing, sys: System, now: Instant) returns (v: System)
    requires Reachable(p, sys) && sys.clock == now
    requires Early(sys.initiator, 2, {0}, now, 3) && Early(sys.responder, 2, {0}, now, 2)
    requires Greeted(sys.initiator) && Greeted(sys.responder)
    ensures JustConnected(p, v, now)
  {
    hide SystemInv, SideInv, PairInv, Early, Reachable, ArriveAt, NextSealed;
    var i, r := sys.initiator, sys.responder;
    InTime(i, 2, {0}, now, 3);
    InTime(r, 2, {0}, now, 2);
    ReachableSides(p, sys, Initiator);
    var fromI, fromR := i.peer.(sendSequence := 1), r.peer.(sendSequence := 1);
    var ackI, ackR := NextSealed(fromI, ReadyAck), NextSealed(fromR, ReadyAck);
    ReadyAckConnects(r, i, fromI, now, 2);
    SentStays(r, ackI, now, ackR);
    Extends(p, sys, Arrive(Responder, ackI, now));
    v := System(i, ArriveAt(r, ackI, now), now);
    AFewMore(v.responder, 2, {0, 1}, now, 3, 4);
    ReachableSides(p, v, Initiator);
    ReadyAckConnects(i, v.responder, fromR, now, 3);
    Extends(p, v, Arrive(Initiator, ackR, now));
    v := System(ArriveAt(i, ackR, now), v.responder, now);
  }

  /** Every pairing has a run that connects both ends. */
  lemma EveryPairingCanConnect(p: Pairing) returns (sys: System)
    requires p.Valid()
    ensures JustConnected(p, sys, Later(p))
  {
    hide Early, Reachable, Shaken, Greeted, JustConnected;
    sys := Shakes(p);
    sys := Greet(p, sys, Later(p));
    sys := Connect(p, sys, Later(p));
  }

  // --- Talking -------------------------------------------------------------------------

  function UpTo(k: nat): seq<u64>
    requires k <= MAX_U64
  {
    seq(k, i requires 0 <= i < k => i + 1)
  }

  function FirstEntry(text: string, first: Instant): PendingMessage {
    PendingMessage(text, 0, first + 500 * MILLISECOND)
  }

  /** The responder has been shown messages 1 to `k`, the last of them just now; the initiator
      knows of all but the first, which it sent at the time `first`. */
  ghost predicate Talking(s: Side, r: Side, text: string, k: nat, first: Instant, now: Instant) {
    && 1 <= k < 1000
    && s.status == Live && r.status == Live && s.peer.link.connected
    && s.peer.link.transport.Some? && r.peer.link.transport.Some?
    && s.peer.id.startedAt <= now && r.peer.id.startedAt <= now
    && s.peer.outbox == Outbox(map[1 := FirstEntry(text, first)], k + 1)
    && s.peer.sendSequence == k + 2 && r.peer.sendSequence == k + 2
    && ReceivedIds(r.events) == UpTo(k)
    && Unhurried(s.peer, now, 5) && Unhurried(r.peer, now, 5)
    && (k > 1 ==> s.peer.clocks.lastReceived == now)
  }

  lemma SaySends(s: Side, text: string, now: Instant)
    requires s.status == Live && s.peer.link.connected && s.peer.link.transport.Some?
    requires |s.peer.outbox.pending| < MAX_PENDING_MESSAGES && IsMessageText(text) && s.peer.sendSequence < MAX_U64
    ensures
      var id, t := s.peer.outbox.nextMessageId, SayAt(s, text, now);
      && t.status == Live && t.accepted == s.accepted
      && t.sent == s.sent + [NextSealed(s.peer, Message(id, text))]
      && t.peer == s.peer.(
           outbox := Outbox(s.peer.outbox.pending[id := PendingMessage(text, 0, now + 500 * MILLISECOND)], NextId(id)),
           sendSequence := s.peer.sendSequence + 1)
  {
    var id := s.peer.outbox.nextMessageId;
    var p := s.peer.(outbox := s.peer.outbox.(nextMessageId := NextId(id)));
    ChannelFrames.SealFailsOnlyAtTheEnd(p, Message(id, text));
    hide Encode, IsMessageText;
  }

  lemma NewIdIsShown(r: Side, k: nat, text: string)
    requires Receipts(r) && k < 1000 && ReceivedIds(r.events) == UpTo(k)
    ensures ReceivedIds(r.events + Deliver(r.peer, k + 1, text).events) == UpTo(k + 1)
  {
    hide ReceivedIds;
    assert k + 1 !in r.peer.inbox.receivedIds;
    ShownLast(r.events, k + 1, text);
    assert UpTo(k) + [k + 1] == UpTo(k + 1);
  }

  lemma ShownLast(events: seq<Event>, id: u64, text: string)
    ensures ReceivedIds(events + [MessageReceived(id, text)]) == ReceivedIds(events) + [id]
  {
    assert (events + [MessageReceived(id, text)])[..|events|] == events;
  }

  lemma {:induction false} ConnectedHeardNothing(events: seq<Event>)
    requires forall e | e in events :: e.PeerConnected?
    ensures ReceivedIds(events) == UpTo(0)
  {
    ChannelFrames.NothingReceived(events);
  }

  lemma ReceiptsOf(s: Side)
    requires SideInv(s)
    ensures Receipts(s) && Handshaked(s.peer)
  {
  }

  /** Saying the first message and taking it in, seen from both sides. */
  lemma FirstIsShown(s: Side, r: Side, text: string, now: Instant)
    requires SideInv(s) && SideInv(r) && PairInv(s, r) && PairInv(r, s) && IsMessageText(text)
    requires Early(s, 2, {0, 1}, now, 4) && Early(r, 2, {0, 1}, now, 4)
    requires s.peer.link.connected && r.peer.link.connected && s.peer.link.transport.Some? && r.peer.link.transport.Some?
    ensures NextSealed(s.peer, Message(1, text)) in SayAt(s, text, now).sent
    ensures Talking(SayAt(s, text, now), ArriveAt(r, NextSealed(s.peer, Message(1, text)), now), text, 1, now, now)
  {
    hide SideInv, PairInv, ArriveAt, SayAt, NextSealed, IsMessageText, AllowPacket, ReceivedIds, Deliver, Receipts, Handshaked;
    ReceiptsOf(r);
    SaySends(s, text, now);
    UnhurriedIsAllowed(r.peer, now, 4);
    ConnectedHeardNothing(r.events);
    NewIdIsShown(r, 0, text);
    FirstIsTaken(s, r, text, now);
  }

  lemma FirstIsTaken(s: Side, r: Side, text: string, now: Instant)
    requires SideInv(r) && PairInv(s, r) && PairInv(r, s) && IsMessageText(text)
    requires s.peer.sendSequence == 2 && r.accepted == {0, 1} && r.status == Live && r.peer.sendSequence == 2
    requires s.peer.link.transport.Some? && r.peer.link.transport.Some? && AllowPacket(r.peer, now).1
    ensures
      var t := ArriveAt(r, NextSealed(s.peer, Message(1, text)), now);
      && t.status == Live && t.events == r.events + Deliver(r.peer, 1, text).events
      && t.peer.id == r.peer.id && t.peer.link == r.peer.link && t.peer.sendSequence == 3
      && t.peer.clocks == AllowPacket(r.peer, now).0.clocks.(lastReceived := now)
  {
    hide SideInv, PairInv, ArriveAt, NextSealed, IsMessageText, AllowPacket, Deliver;
    MessageIsAnswered(r, s, s.peer, 1, text, now);
  }

  /** The first message is said and shown. Its acknowledgement is sent, and lost. */
  lemma FirstMessage(p: Pairing, sys: System, text: string, now: Instant) returns (v: System)
    requires JustConnected(p, sys, now) && IsMessageText(text)
    ensures Reachable(p, v) && v.clock == now && Talking(v.initiator, v.responder, text, 1, now, now)
  {
    hide SystemInv, SideInv, PairInv, Reachable, ArriveAt, SayAt, NextSealed, IsMessageText, Talking, DueIds, Enumerates;
    var s, r := sys.initiator, sys.responder;
    ReachableSides(p, sys, Initiator);
    ReceiptsOf(s);
    ReceiptsOf(r);
    FirstIsShown(s, r, text, now);
    Extends(p, sys, Say(Initiator, text, now));
    v := System(SayAt(s, text, now), r, now);
    var message := NextSealed(s.peer, Message(1, text));
    Extends(p, v, Arrive(Responder, message, now));
    v := System(v.initiator, ArriveAt(r, message, now), now);
  }

  /** One more message is said, shown and acknowledged, 12 ms later. */
  lemma OneMore(p: Pairing, sys: System, text: string, k: nat, first: Instant) returns (v: System)
    requires Reachable(p, sys) && IsMessageText(text) && k < 999
    requires Talking(sys.initiator, sys.responder, text, k, first, sys.clock)
    ensures Reachable(p, v) && v.clock == sys.clock + GAP
    ensures Talking(v.initiator, v.responder, text, k + 1, first, v.clock)
  {
    hide SystemInv, SideInv, PairInv, Reachable, ArriveAt, SayAt, NextSealed, IsMessageText, AllowPacket;
    hide ReceivedIds, Deliver, DueIds, Enumerates, Receipts;
    var s, r, now := sys.initiator, sys.responder, sys.clock + GAP;
    ReachableSides(p, sys, Initiator);
    ReceiptsOf(r);
    SaySends(s, text, now);
    Extends(p, sys, Say(Initiator, text, now));
    var s1 := SayAt(s, text, now);
    v := System(s1, r, now);
    ReachableSides(p, v, Initiator);
    AcceptedIsOlder(r, s);
    AcceptedIsOlder(s1, r);
    WaitingIsUnhurried(r.peer, sys.clock, 4);
    WaitingIsUnhurried(s.peer, sys.clock, 4);
    UnhurriedIsAllowed(r.peer, now, 4);
    UnhurriedIsAllowed(s1.peer, now, 4);
    MessageIsAnswered(r, s1, s.peer, k + 1, text, now);
    NewIdIsShown(r, k, text);
    var message, ack := NextSealed(s.peer, Message(k + 1, text)), NextSealed(r.peer, MessageAck(k + 1));
    Extends(p, v, Arrive(Responder, message, now));
    var r1 := ArriveAt(r, message, now);
    v := System(s1, r1, now);
    AckSettles(s1, r, r.peer, k + 1, now);
    Extends(p, v, Arrive(Initiator, ack, now));
    v := System(ArriveAt(s1, ack, now), r1, now);
  }

  lemma {:induction false} ManyMore(p: Pairing, sys: System, text: string, n: nat, first: Instant) returns (v: System)
    requires Reachable(p, sys) && IsMessageText(text) && n < 999
    requires Talking(sys.initiator, sys.responder, text, 1, first, sys.clock)
    ensures Reachable(p, v) && v.clock == sys.clock + n * GAP
    ensures Talking(v.initiator, v.responder, text, n + 1, first, v.clock)
  {
    hide Reachable, Talking, IsMessageText;
    if n == 0 {
      v := sys;
    } else {
      var u := ManyMore(p, sys, text, n - 1, first);
      v := OneMore(p, u, text, n, first);
    }
  }

  // --- Again ---------------------------------------------------------------------------

  lemma HeartbeatGoes(p: Peer, now: Instant)
    requires p.link.transport.Some? && p.sendSequence < 2000
    ensures SendHeartbeat(p, now).error.None? && SendHeartbeat(p, now).peer.sendSequence <= p.sendSequence + 1
  {
    ChannelFrames.SealFailsOnlyAtTheEnd(p, Heartbeat);
    ChannelFrames.SealShape(p, Encode(Heartbeat));
    hide Seal, Encode;
  }

  lemma RetryGoes(p: Peer, id: u64, now: Instant)
    requires p.link.transport.Some? && p.sendSequence < MAX_U64
    requires id in p.outbox.pending && p.outbox.pending[id].retries == 0 && IsMessageText(p.outbox.pending[id].text)
    ensures RetryAll(p, [id], now).error.None?
  {
    ChannelFrames.SealFailsOnlyAtTheEnd(p.(outbox := p.outbox.(pending := p.outbox.pending - {id})), Message(id, p.outbox.pending[id].text));
    assert [id][..0] == [] && RetryAll(p, [], now) == Quiet(p);
    hide Seal, Encode, IsMessageText;
  }

  /** The first message is due again and nothing stands in the way. */
  lemma TickGoes(s: Side, text: string, first: Instant, now: Instant)
    requires s.peer.link.connected && s.peer.link.transport.Some? && s.peer.sendSequence < 2000
    requires s.peer.outbox.pending == map[1 := FirstEntry(text, first)] && IsMessageText(text)
    requires first + 500 * MILLISECOND <= now && s.peer.clocks.lastReceived == now
    ensures Enumerates([1], DueIds(s.peer, now))
    ensures var r := PeerModel.Tick(s.peer, [1], now); r.action == Continue && r.effect.error.None?
  {
    hide SendHeartbeat, RetryAll, IsMessageText;
    var p := s.peer;
    assert DueIds(p, now) == {1};
    assert ConnectionAction(p, now) == (p, Continue) && Handshake(p, now) == Quiet(p);
    HeartbeatGoes(p, now);
    ChannelTicks.UpkeepFrame(p, now);
    RetryGoes(SendHeartbeat(p, now).peer, 1, now);
  }

  lemma FirstIsForgotten(r: Side, text: string)
    requires Receipts(r) && ReceivedIds(r.events) == UpTo(MAX_HISTORY_DEDUP + 1)
    ensures ReceivedIds(r.events + Deliver(r.peer, 1, text).events) == UpTo(MAX_HISTORY_DEDUP + 1) + [1]
  {
    hide ReceivedIds;
    assert 1 !in Latest(UpTo(MAX_HISTORY_DEDUP + 1));
    ShownLast(r.events, 1, text);
  }

  /** The first message is repeated and shown again. */
  lemma Again(p: Pairing, sys: System, text: string, first: Instant) returns (v: System)
    requires Reachable(p, sys) && IsMessageText(text) && first + 500 * MILLISECOND <= sys.clock
    requires Talking(sys.initiator, sys.responder, text, MAX_HISTORY_DEDUP + 1, first, sys.clock)
    ensures Reachable(p, v) && v.clock == sys.clock
    ensures ReceivedIds(v.responder.events) == UpTo(MAX_HISTORY_DEDUP + 1) + [1]
  {
    hide SystemInv, SideInv, PairInv, Reachable, ArriveAt, TickAt, NextSealed, IsMessageText, AllowPacket, ReceivedIds, Deliver;
    hide PeerModel.Tick, Enumerates, DueIds;
    var s, r, now := sys.initiator, sys.responder, sys.clock;
    ReachableSides(p, sys, Initiator);
    ReceiptsOf(r);
    TickGoes(s, text, first, now);
    TickStaysLive(s, [1], now);
    var n := TickTransmits(s, [1], now, 1);
    Extends(p, sys, Tick(Initiator, [1], now));
    v := System(TickAt(s, [1], now), r, now);
    ReachableSides(p, v, Initiator);
    AcceptedIsOlder(r, s);
    UnhurriedIsAllowed(r.peer, now, 5);
    var from := s.peer.(sendSequence := n);
    var message := NextSealed(from, Message(1, text));
    MessageIsAnswered(r, v.initiator, from, 1, text, now);
    FirstIsForgotten(r, text);
    Extends(p, v, Arrive(Responder, message, now));
    v := System(v.initiator, ArriveAt(r, message, now), now);
  }

  /** In every pairing a message can be delivered twice: the first one, when its
      acknowledgement is lost, 512 others get through within 6.2 seconds, and it is then
      repeated. */
  lemma DeliveredTwice(p: Pairing, text: string) returns (sys: System)
    requires p.Valid() && IsMessageText(text)
    ensures Reachable(p, sys) && sys.clock <= Later(p) + 6200 * MILLISECOND
    ensures ReceivedIds(sys.responder.events) == UpTo(MAX_HISTORY_DEDUP + 1) + [1]
  {
    hide Reachable, Talking, JustConnected, IsMessageText, ReceivedIds;
    var first := Later(p);
    sys := EveryPairingCanConnect(p);
    sys := FirstMessage(p, sys, text, first);
    sys := ManyMore(p, sys, text, MAX_HISTORY_DEDUP, first);
    sys := Again(p, sys, text, first);
  }

  lemma OneLetterIsANickname()
    ensures IsNickname("a")
  {
    hide Trim, Utf8.Encode;
    TrimIsFixpoint("a");
    Utf8.EncodeAscii("a");
  }

  lemma SomePairing() returns (p: Pairing)
    ensures p.Valid()
  {
    hide IsNickname;
    OneLetterIsANickname();
    p := Pairing(Context(Public, [], []), false, 0, 1, "a", "a", 0, 0);
  }

  /** So at-most-once delivery fails. */
  lemma AtMostOnceFails()
    ensures exists p, sys, who: Party, i, j ::
              && Reachable(p, sys) && 0 <= i < j < |ReceivedIds(sys.Get(who).events)|
              && ReceivedIds(sys.Get(who).events)[i] == ReceivedIds(sys.Get(who).events)[j]
  {
    hide Reachable, IsMessageText, ReceivedIds;
    EmptyTextFits();
    var p := SomePairing();
    var sys := DeliveredTwice(p, "");
    var ids := ReceivedIds(sys.Get(Responder).events);
    assert Reachable(p, sys) && 0 <= 0 < MAX_HISTORY_DEDUP + 1 < |ids| && ids[0] == ids[MAX_HISTORY_DEDUP + 1];
  }

  lemma EmptyTextFits()
    ensures IsMessageText("")
  {
  }
}
