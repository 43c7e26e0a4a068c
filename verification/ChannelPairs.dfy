/** Every step of either peer keeps what each may conclude about the other. */
module ChannelPairs {
  import opened Prelude
  import opened Protocol
  import opened Replay
  import opened Plaintext
  import opened PeerModel
  import opened Channel
  import opened ChannelInvariant
  import opened ChannelFrames
  import opened ChannelSteps
  import ChannelSends
  import ChannelTicks

  // --- Steps of one's own accord -------------------------------------------------------

  /** Nothing has been learnt about the other side. */
  lemma NothingLearnt(s: Side, t: Side, other: Side, raised: seq<Event>)
    requires PairInv(s, other)
    requires t.peer.id == s.peer.id && t.peer.link == s.peer.link && t.accepted == s.accepted
    requires t.events == s.events + raised
    requires forall e | e in raised :: !e.PeerConnected? && !e.MessageReceived? && !e.MessageDelivered?
    ensures PairInv(t, other)
  {
    assert CommonSession(t.peer, other.peer) == CommonSession(s.peer, other.peer);
  }

  /** A retransmission round reports failures and nothing else. */
  lemma {:induction false} RetriesOnlyFail(p: Peer, due: seq<u64>, now: Instant)
    ensures forall e | e in RetryAll(p, due, now).events :: e.MessageFailed?
  {
    if due != [] {
      var front, id := due[..|due| - 1], due[|due| - 1];
      RetriesOnlyFail(p, front, now);
      var e := RetryAll(p, front, now);
      var entry := if id in e.peer.outbox.pending then e.peer.outbox.pending[id].text else "";
      SealShape(e.peer.(outbox := e.peer.outbox.(pending := e.peer.outbox.pending - {id})), Encode(Message(id, entry)));
      hide Seal, Encode;
      assert forall f | f in RetryOne(e.peer, id, now).events :: f.MessageFailed?;
    }
  }

  lemma TickLearnsNothing(p: Peer, due: seq<u64>, now: Instant)
    ensures
      var e := PeerModel.Tick(p, due, now).effect;
      && e.peer.id == p.id && e.peer.link == p.link
      && forall f | f in e.events :: f.MessageFailed?
  {
    var (q, action) := ConnectionAction(p, now);
    if action == Continue {
      var e := Handshake(q, now);
      var f := e.Then(SendHeartbeat(e.peer, now));
      ChannelTicks.UpkeepFrame(q, now);
      ChannelTicks.UpkeepFrame(e.peer, now);
      ChannelSends.RetryAllFrame(f.peer, due, now);
      RetriesOnlyFail(f.peer, due, now);
      hide Handshake, SendHeartbeat, RetryAll;
    }
  }

  lemma TickPair(s: Side, due: seq<u64>, now: Instant, other: Side)
    requires PairInv(s, other)
    ensures PairInv(TickAt(s, due, now), other)
  {
    hide PairInv, PeerModel.Tick;
    TickLearnsNothing(s.peer, due, now);
    NothingLearnt(s, TickAt(s, due, now), other, PeerModel.Tick(s.peer, due, now).effect.events);
  }

  lemma SayPair(s: Side, text: string, now: Instant, other: Side)
    requires PairInv(s, other)
    ensures PairInv(SayAt(s, text, now), other)
  {
    hide PairInv;
    var id := s.peer.outbox.nextMessageId;
    SealShape(s.peer.(outbox := s.peer.outbox.(nextMessageId := NextId(id))), Encode(Message(id, text)));
    hide Seal, Encode;
    NothingLearnt(s, SayAt(s, text, now), other, SendMessage(s.peer, text, now).events);
  }

  lemma ClosePair(s: Side, order: seq<u64>, other: Side)
    requires PairInv(s, other)
    ensures PairInv(CloseAt(s, order), other)
  {
    NothingLearnt(s, CloseAt(s, order), other, Failures(order));
  }

  // --- Handshake packets ---------------------------------------------------------------

  /** The network carries what either side sent, or what nobody needs to have sent. */
  ghost predicate Travels(packet: Packet, s: Side, other: Side) {
    packet in s.sent || packet in other.sent || Injectable(packet)
  }

  lemma InitComesFromOther(s: Side, other: Side, hello: Hello)
    requires SideInv(s) && SideInv(other) && PairInv(s, other) && !s.peer.id.initiator
    requires Travels(Init(hello), s, other)
    ensures hello == Hello(s.peer.id.context, other.peer.id.key)
  {
    assert Init(hello) in s.sent ==> Own(s, Init(hello));
    assert Init(hello) in other.sent ==> Own(other, Init(hello));
  }

  lemma ResponseComesFromOther(s: Side, other: Side, reply: Reply)
    requires SideInv(s) && SideInv(other) && PairInv(s, other) && PairInv(other, s) && s.peer.id.initiator
    requires Travels(Response(reply), s, other)
    ensures other.peer.link.transport.Some?
    ensures reply == Reply(CommonSession(s.peer, other.peer))
  {
    assert Response(reply) in s.sent ==> Own(s, Response(reply));
    assert Response(reply) in other.sent ==> Own(other, Response(reply));
  }

  /** A transport packet that opens was sent by the other side, for a reason. */
  lemma TransportComesFromOther(s: Side, other: Side, sequence: u64, body: Sealed)
    requires SideInv(s) && SideInv(other) && PairInv(s, other) && s.peer.link.transport.Some?
    requires Travels(Transport(sequence, body), s, other)
    requires Open(s.peer.link.transport.value, !s.peer.id.initiator, sequence, body).Some?
    ensures Transport(sequence, body) in other.sent
    ensures Own(other, Transport(sequence, body))
    ensures
      var plaintext := Open(s.peer.link.transport.value, !s.peer.id.initiator, sequence, body).value;
      && sequence < other.peer.sendSequence && other.peer.link.transport.Some?
      && Parse(plaintext).Some? && Justified(other, Parse(plaintext).value)
  {
    assert Transport(sequence, body) in s.sent ==> Own(s, Transport(sequence, body));
    assert Transport(sequence, body) in other.sent ==> Own(other, Transport(sequence, body));
  }

  lemma AdoptedPair(s: Side, t: Side, other: Side)
    requires PairInv(s, other) && !s.peer.link.readyReceived && !s.peer.link.readyAcked
    requires t.peer.id == s.peer.id && t.accepted == s.accepted && t.events == s.events
    requires !t.peer.link.readyReceived && !t.peer.link.readyAcked
    requires t.peer.link.transport == Some(CommonSession(s.peer, other.peer))
    requires s.peer.id.initiator ==> other.peer.link.transport.Some?
    ensures PairInv(t, other)
  {
  }

  // --- Plaintexts ----------------------------------------------------------------------

  /** Learning the other side's nickname, or that it is ready, may connect. */
  lemma ConnectingPair(s: Side, p: Peer, t: Side, other: Side)
    requires PairInv(s, other)
    requires t.peer.id == s.peer.id && t.peer.link == MaybeConnect(p).peer.link && t.accepted == s.accepted
    requires p.link.transport == s.peer.link.transport
    requires p.link.readyReceived ==>
               other.peer.link.transport.Some? && p.link.peerNickname == Some(other.peer.id.localNickname)
    requires p.link.readyAcked ==> other.peer.link.readyReceived
    requires t.events == s.events + MaybeConnect(p).events
    ensures PairInv(t, other)
  {
    assert CommonSession(t.peer, other.peer) == CommonSession(s.peer, other.peer);
    hide CommonSession;
  }

  /** A message or an acknowledgement tells what the other side had already done. */
  lemma LearningPair(s: Side, t: Side, other: Side, raised: seq<Event>)
    requires PairInv(s, other)
    requires t.peer.id == s.peer.id && t.peer.link == s.peer.link && t.accepted == s.accepted
    requires t.events == s.events + raised
    requires forall e | e in raised :: !e.PeerConnected?
    requires forall e | e in raised && e.MessageReceived? :: MessagePending(e.id, e.text) in other.events
    requires forall e | e in raised && e.MessageDelivered? :: HasReceived(other.events, e.id)
    ensures PairInv(t, other)
  {
    assert CommonSession(t.peer, other.peer) == CommonSession(s.peer, other.peer);
    hide CommonSession, HasReceived;
  }

  lemma ReadyPair(s: Side, nickname: string, other: Side)
    requires Handshaked(s.peer) && s.peer.link.transport.Some?
    requires PairInv(s, other) && Justified(other, Ready(nickname)) && other.peer.link.transport.Some?
    ensures PairInv(Advance(s, HandlePlain(s.peer, Ready(nickname))), other)
  {
    var p := s.peer.(link := s.peer.link.(peerNickname := Some(nickname), readyReceived := true));
    var f := Seal(p, Encode(ReadyAck));
    var t := Advance(s, HandlePlain(s.peer, Ready(nickname)));
    SealShape(p, Encode(ReadyAck));
    assert s.peer.link.readyAcked ==> other.peer.link.readyReceived;
    hide PairInv, Seal, Encode, Handshaked;
    if f.error.None? {
      ConnectingPair(s, f.peer, t, other);
    } else {
      ReadyRefusedPair(s, p, t, other);
    }
  }

  lemma ReadyRefusedPair(s: Side, p: Peer, t: Side, other: Side)
    requires PairInv(s, other) && other.peer.link.transport.Some?
    requires p == s.peer.(link := s.peer.link.(peerNickname := Some(other.peer.id.localNickname), readyReceived := true))
    requires t.peer.id == s.peer.id && t.peer.link == p.link && t.accepted == s.accepted && t.events == s.events
    ensures PairInv(t, other)
  {
    assert CommonSession(t.peer, other.peer) == CommonSession(s.peer, other.peer);
    hide CommonSession, HasReceived;
  }

  lemma ReadyAckPair(s: Side, other: Side)
    requires Handshaked(s.peer) && PairInv(s, other) && Justified(other, ReadyAck)
    ensures PairInv(Advance(s, HandlePlain(s.peer, ReadyAck)), other)
  {
    var p := s.peer.(link := s.peer.link.(readyAcked := true));
    var t := Advance(s, HandlePlain(s.peer, ReadyAck));
    assert p.link.readyReceived ==>
        other.peer.link.transport.Some? && p.link.peerNickname == Some(other.peer.id.localNickname);
    hide PairInv, Handshaked;
    ConnectingPair(s, p, t, other);
  }

  lemma MessagePair(s: Side, id: u64, text: string, other: Side)
    requires PairInv(s, other) && Justified(other, Message(id, text))
    ensures PairInv(Advance(s, HandlePlain(s.peer, Message(id, text))), other)
  {
    hide PairInv;
    var e := HandlePlain(s.peer, Message(id, text));
    SealShape(s.peer, Encode(MessageAck(id)));
    hide Seal, Encode;
    LearningPair(s, Advance(s, e), other, e.events);
  }

  /** What a handled plaintext teaches was true of its sender. */
  lemma HandlePlainPair(s: Side, plain: Plain, other: Side)
    requires Handshaked(s.peer) && s.peer.link.transport.Some?
    requires PairInv(s, other) && Justified(other, plain) && other.peer.link.transport.Some?
    ensures PairInv(Advance(s, HandlePlain(s.peer, plain)), other)
  {
    hide PairInv, Handshaked;
    match plain
    case Ready(nickname) =>
      hide HandlePlain;
      ReadyPair(s, nickname, other);
    case ReadyAck =>
      hide HandlePlain;
      ReadyAckPair(s, other);
    case Message(id, text) =>
      hide HandlePlain;
      MessagePair(s, id, text, other);
    case MessageAck(id) =>
      var e := HandlePlain(s.peer, plain);
      LearningPair(s, Advance(s, e), other, e.events);
    case Heartbeat =>
      Idle(s);
  }

  // --- Arrivals ------------------------------------------------------------------------

  /** The window records the sequence before the plaintext is looked at. */
  lemma AdmitStep(s: Side, sequence: u64, other: Side)
    requires SideInv(s) && PairInv(s, other) && WouldAccept(s.peer.replay, sequence)
    requires sequence < other.peer.sendSequence
    ensures
      var t := s.(peer := s.peer.(replay := Record(s.peer.replay, sequence)), accepted := s.accepted + {sequence});
      SideInv(t) && Grows(s, t) && PairInv(t, other)
  {
    var t := s.(peer := s.peer.(replay := Record(s.peer.replay, sequence)), accepted := s.accepted + {sequence});
    RecordRepresents(s.peer.replay, s.accepted, sequence);
    assert CommonSession(t.peer, other.peer) == CommonSession(s.peer, other.peer);
    hide Represents, Record;
    AdmitFrame(s, t);
  }

  lemma AdmitFrame(s: Side, t: Side)
    requires SideInv(s) && Represents(t.peer.replay, t.accepted)
    requires t == s.(peer := s.peer.(replay := t.peer.replay), accepted := t.accepted)
    ensures SideInv(t) && Grows(s, t)
  {
    hide Traffic, Receipts, AnnouncedInOrder, Accounts, Represents;
    assert s.events == s.events + [] && s.sent == s.sent + [];
    TrafficStep(s, t, []);
    ConnectsFrame(s, t, []);
    ReceiptsFrame(s, t, []);
    if s.status != Broken {
      AccountsFrame(s, t, [], []);
    }
  }

  /** An arrival seen from both sides: the invariant holds and the other side need not move. */
  ghost predicate Arrived(s: Side, t: Side, other: Side) {
    SideInv(t) && Grows(s, t) && PairInv(t, other)
  }

  lemma TransportArrives(s: Side, other: Side, sequence: u64, body: Sealed)
    requires SideInv(s) && SideInv(other) && PairInv(s, other) && s.status == Live
    requires s.peer.link.transport.Some? && Travels(Transport(sequence, body), s, other)
    ensures
      var t := Advance(s, HandleTransport(s.peer, sequence, body)).(
        accepted := if Opened(s.peer, sequence, body).Some? then s.accepted + {sequence} else s.accepted);
      Arrived(s, t, other)
    ensures Opened(s.peer, sequence, body).Some? ==> Parse(Opened(s.peer, sequence, body).value).Some?
  {
    if Opened(s.peer, sequence, body).None? {
      hide SideInv, Grows, PairInv;
      Idle(s);
    } else {
      TransportComesFromOther(s, other, sequence, body);
      var plain := Parse(Opened(s.peer, sequence, body).value).value;
      var u := s.(peer := s.peer.(replay := Record(s.peer.replay, sequence)), accepted := s.accepted + {sequence});
      hide SideInv, Grows, PairInv, HandlePlain, Parse, Record, Justified, Own;
      AdmitStep(s, sequence, other);
      HandlePlainStep(u, plain);
      HandlePlainPair(u, plain, other);
      ChannelSends.GrowsThrough(s, u, Advance(u, HandlePlain(u.peer, plain)));
    }
  }

  lemma InitArrives(s: Side, other: Side, hello: Hello, now: Instant)
    requires SideInv(s) && SideInv(other) && PairInv(s, other) && s.status == Live && !s.peer.id.initiator
    requires Travels(Init(hello), s, other)
    ensures HandleInit(s.peer, hello, now).error.None?
    ensures Arrived(s, Advance(s, HandleInit(s.peer, hello, now)), other)
  {
    InitComesFromOther(s, other, hello);
    if s.peer.link.responsePacket.Some? {
      var packet := s.peer.link.responsePacket.value;
      var e := Effect(s.peer, [packet], [], None);
      ControlStep(s, packet);
      NothingLearnt(s, Advance(s, e), other, []);
    } else {
      AcceptHelloStep(s, other.peer.id.key, now);
      assert !s.peer.link.readyReceived && !s.peer.link.readyAcked;
      var t := Advance(s, AcceptHello(s.peer, other.peer.id.key, now));
      assert ReadHello(s.peer.id.context, hello) == Some(other.peer.id.key);
      assert t.peer.link.transport == Some(CommonSession(s.peer, other.peer));
      hide SideInv, AcceptHello;
      assert t.events == s.events;
      AdoptedPair(s, t, other);
    }
  }

  lemma ResponseArrives(s: Side, other: Side, reply: Reply, now: Instant)
    requires SideInv(s) && SideInv(other) && PairInv(s, other) && PairInv(other, s) && s.status == Live
    requires s.peer.id.initiator && s.peer.link.transport.None? && Travels(Response(reply), s, other)
    ensures HandleResponse(s.peer, reply, now).error.None?
    ensures Arrived(s, Advance(s, HandleResponse(s.peer, reply, now)), other)
  {
    ResponseComesFromOther(s, other, reply);
    HandleResponseStep(s, reply, now);
    assert !s.peer.link.readyReceived && !s.peer.link.readyAcked;
    var t := Advance(s, HandleResponse(s.peer, reply, now));
    hide SideInv, HandleResponse;
    assert t.events == s.events;
    AdoptedPair(s, t, other);
  }

  lemma PunchArrives(s: Side, other: Side, packet: Packet, now: Instant)
    requires SideInv(s) && PairInv(s, other) && s.status == Live && packet.Punch?
    requires s.peer.clocks.lastReceived == now
    ensures Arrived(s, Advance(s, HandlePacket(s.peer, packet, now)), other)
  {
    assert s.peer.link.initialPacket.Some? ==>
        Own(s, s.peer.link.initialPacket.value) && !s.peer.link.initialPacket.value.Transport?;
    assert s.peer.(clocks := s.peer.clocks.(lastReceived := now)) == s.peer;
    hide SideInv, PairInv, Grows, Own;
    if s.peer.link.initialPacket.Some? {
      var initial := s.peer.link.initialPacket.value;
      var t := Advance(s, Effect(s.peer, [initial], [], None));
      ControlStep(s, initial);
      NothingLearnt(s, t, other, []);
    } else {
      Idle(s);
    }
  }

  /** Where the packet goes once the time of its arrival is noted. */
  lemma DispatchStep(u: Side, other: Side, packet: Packet, now: Instant)
    requires SideInv(u) && SideInv(other) && PairInv(u, other) && PairInv(other, u) && u.status == Live
    requires Travels(packet, u, other) && u.peer.clocks.lastReceived == now
    ensures
      var t := Advance(u, HandlePacket(u.peer, packet, now)).(
        accepted := if packet.Transport? && u.peer.link.transport.Some? && Opened(u.peer, packet.sequence, packet.body).Some?
                    then u.accepted + {packet.sequence} else u.accepted);
      Arrived(u, t, other)
  {
    hide SideInv, PairInv, Grows, HandleInit, HandleResponse, HandleTransport;
    assert u.peer.(clocks := u.peer.clocks.(lastReceived := now)) == u.peer;
    Idle(u);
    match packet
    case Punch =>
      PunchArrives(u, other, packet, now);
    case Init(hello) =>
      if !u.peer.id.initiator {
        InitArrives(u, other, hello, now);
      }
    case Response(reply) =>
      if u.peer.id.initiator && u.peer.link.transport.None? {
        ResponseArrives(u, other, reply, now);
      }
    case Transport(sequence, body) =>
      if u.peer.link.transport.Some? {
        TransportArrives(u, other, sequence, body);
      }
    case _ =>
  }

  lemma HandlePacketStep(s: Side, other: Side, packet: Packet, now: Instant)
    requires SideInv(s) && SideInv(other) && PairInv(s, other) && PairInv(other, s) && s.status == Live
    requires Travels(packet, s, other)
    ensures
      var t := Advance(s, HandlePacket(s.peer, packet, now)).(
        accepted := if packet.Transport? && s.peer.link.transport.Some? && Opened(s.peer, packet.sequence, packet.body).Some?
                    then s.accepted + {packet.sequence} else s.accepted);
      Arrived(s, t, other)
  {
    hide SideInv, PairInv, Grows;
    if packet.Foreign? {
      Idle(s);
    } else {
      var q := s.peer.(clocks := s.peer.clocks.(lastReceived := now));
      var u := s.(peer := q);
      ClocksDoNotMatter(s, q);
      ClocksDoNotMatterToPairs(s, q, other);
      PairGrows(other, s, u);
      DispatchStep(u, other, packet, now);
      var t := Advance(u, HandlePacket(u.peer, packet, now)).(
        accepted := if packet.Transport? && u.peer.link.transport.Some? && Opened(u.peer, packet.sequence, packet.body).Some?
                    then u.accepted + {packet.sequence} else u.accepted);
      ChannelSends.GrowsThrough(s, u, t);
      assert HandlePacket(u.peer, packet, now) == HandlePacket(s.peer, packet, now);
    }
  }

  lemma ArriveStep(s: Side, other: Side, packet: Packet, now: Instant)
    requires SideInv(s) && SideInv(other) && PairInv(s, other) && PairInv(other, s) && s.status == Live
    requires Travels(packet, s, other)
    ensures Arrived(s, ArriveAt(s, packet, now), other)
  {
    hide SideInv, PairInv, Grows, HandlePacket;
    var (q, allowed) := AllowPacket(s.peer, now);
    var u := s.(peer := q);
    assert SameButClocks(s.peer, q);
    hide AllowPacket;
    ClocksDoNotMatter(s, q);
    ClocksDoNotMatterToPairs(s, q, other);
    PairGrows(other, s, u);
    Idle(u);
    if allowed {
      HandlePacketStep(u, other, packet, now);
      ChannelSends.GrowsThrough(s, u, ArriveAt(s, packet, now));
    }
  }

  // --- Steps of the system -------------------------------------------------------------

  /** The clock of the system is never behind what the sides have recorded. */
  ghost predicate Timely(sys: System) {
    && (forall k | 0 <= k < |sys.initiator.asked| :: sys.initiator.asked[k] <= sys.clock)
    && (forall k | 0 <= k < |sys.responder.asked| :: sys.responder.asked[k] <= sys.clock)
  }

  ghost predicate SystemInv(sys: System) {
    Inv(sys) && Timely(sys) && sys.initiator.peer.id.initiator
  }

  lemma StepAt(s: Side, t: Side, other: Side, sys: System, step: Step)
    requires SideInv(s) && SideInv(other) && PairInv(s, other) && PairInv(other, s)
    requires s == sys.Get(step.who) && other == sys.Get(step.who.Other())
    requires Enabled(sys, step) && Timely(sys) && t == Apply(sys, step).Get(step.who)
    ensures Arrived(s, t, other)
  {
    hide SideInv, PairInv, Grows, ArriveAt, TickAt, SayAt, CloseAt;
    match step
    case Arrive(_, packet, now) =>
      ArriveStep(s, other, packet, now);
    case Tick(_, due, now) =>
      ChannelTicks.TickStep(s, due, now);
      TickPair(s, due, now, other);
    case Say(_, text, now) =>
      ChannelSends.SayStep(s, text, now);
      SayPair(s, text, now, other);
    case Close(_, order, _) =>
      ChannelTicks.CloseStep(s, order);
      ClosePair(s, order, other);
  }

  lemma ApplyKeepsTime(sys: System, step: Step)
    requires Timely(sys) && Enabled(sys, step)
    ensures Timely(Apply(sys, step))
  {
    hide Receive, SendMessage, PeerModel.Tick;
  }

  lemma ApplyKeepsInv(sys: System, step: Step)
    requires SystemInv(sys) && Enabled(sys, step)
    ensures SystemInv(Apply(sys, step))
  {
    var s, other := sys.Get(step.who), sys.Get(step.who.Other());
    var t := Apply(sys, step).Get(step.who);
    ApplyKeepsTime(sys, step);
    hide SideInv, PairInv, Enabled, Timely, ArriveAt, TickAt, SayAt, CloseAt;
    StepAt(s, t, other, sys, step);
    PairGrows(other, s, t);
  }

  /** A step only ever adds to what either side has sent, raised and reached. */
  lemma StepGrows(sys: System, step: Step, who: Party)
    requires SystemInv(sys) && Enabled(sys, step)
    ensures Grows(sys.Get(who), Apply(sys, step).Get(who))
  {
    hide SideInv, PairInv, Enabled, ArriveAt, TickAt, SayAt, CloseAt, Timely;
    if step.who == who {
      StepAt(sys.Get(who), Apply(sys, step).Get(who), sys.Get(who.Other()), sys, step);
    }
  }

  lemma BeginInv(p: Peer)
    requires p == NewPeer(p.id.context, p.id.initiator, p.id.key, p.id.ipv6, p.id.localNickname, p.id.startedAt)
    requires IsNickname(p.id.localNickname)
    ensures SideInv(Begin(p))
  {
    hide IsNickname;
    var s := Begin(p);
    assert Handshaked(s.peer) && Connects(s) && Traffic(s);
    assert Receipts(s) && AnnouncedInOrder(s.events) && Represents(s.peer.replay, s.accepted);
    assert Accounts(s) && Asks(s);
  }

  lemma StartKeepsInv(p: Pairing)
    requires p.Valid()
    ensures SystemInv(Start(p))
  {
    hide IsNickname, SideInv;
    var sys := Start(p);
    assert p.initiatorName in [p.initiatorName, p.responderName] && p.responderName in [p.initiatorName, p.responderName];
    BeginInv(sys.initiator.peer);
    BeginInv(sys.responder.peer);
    BeginPair(sys.initiator, sys.responder);
    BeginPair(sys.responder, sys.initiator);
  }

  lemma BeginPair(s: Side, other: Side)
    requires s == Begin(s.peer) && s.peer.link.transport.None?
    requires !s.peer.link.readyReceived && !s.peer.link.readyAcked
    requires s.peer.id.initiator == !other.peer.id.initiator && s.peer.id.context == other.peer.id.context
    ensures PairInv(s, other)
  {
  }

  /** The invariant of the pairing, all along every run. */
  lemma {:induction false} RunKeepsInv(states: seq<System>, steps: seq<Step>, i: nat)
    requires IsRun(states, steps) && SystemInv(states[0]) && i < |states|
    ensures SystemInv(states[i])
  {
    hide SystemInv, Apply, Enabled;
    if i > 0 {
      RunKeepsInv(states, steps, i - 1);
      assert Leads(states, steps, i - 1);
      ApplyKeepsInv(states[i - 1], steps[i - 1]);
    }
  }
}
