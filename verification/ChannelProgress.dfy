/** When a handler may fail, and what a lost acknowledgement costs. */
module ChannelProgress {
  import opened Prelude
  import opened Protocol
  import opened Replay
  import opened Plaintext
  import opened PeerModel
  import opened Channel
  import opened ChannelInvariant
  import ChannelFrames
  import opened ChannelSends
  import ChannelTicks
  import opened ChannelPairs
  import ChannelTheorems

  // --- Only an exhausted counter fails a handler ---------------------------------------

  /** The handler went through, or has no sequence left to send with. */
  predicate Excused(e: Effect) {
    e.error.Some? ==> e.peer.sendSequence == MAX_U64
  }

  lemma SealIsExcused(p: Peer, plain: Plain)
    requires p.link.transport.Some? && Sendable(plain)
    ensures Excused(Seal(p, Encode(plain)))
  {
    ChannelFrames.SealFailsOnlyAtTheEnd(p, plain);
    ChannelFrames.SealShape(p, Encode(plain));
  }

  lemma PlainIsExcused(p: Peer, plain: Plain)
    requires p.link.transport.Some?
    ensures Excused(HandlePlain(p, plain))
  {
    match plain
    case Ready(nickname) =>
      SealIsExcused(p.(link := p.link.(peerNickname := Some(nickname), readyReceived := true)), ReadyAck);
      hide Seal, Encode;
    case Message(id, text) =>
      SealIsExcused(p, MessageAck(id));
      hide Seal, Encode;
    case _ =>
  }

  lemma TransportIsExcused(s: Side, other: Side, sequence: u64, body: Sealed)
    requires SideInv(s) && SideInv(other) && PairInv(s, other) && s.status == Live
    requires s.peer.link.transport.Some? && Travels(Transport(sequence, body), s, other)
    ensures Excused(HandleTransport(s.peer, sequence, body))
  {
    hide SideInv, PairInv, Travels, HandlePlain, Parse;
    TransportArrives(s, other, sequence, body);
    if Opened(s.peer, sequence, body).Some? {
      var plain := Parse(Opened(s.peer, sequence, body).value).value;
      PlainIsExcused(s.peer.(replay := Record(s.peer.replay, sequence)), plain);
    }
  }

  lemma PacketIsExcused(s: Side, other: Side, packet: Packet, now: Instant)
    requires SideInv(s) && SideInv(other) && PairInv(s, other) && PairInv(other, s) && s.status == Live
    requires Travels(packet, s, other)
    ensures Excused(HandlePacket(s.peer, packet, now))
  {
    hide SideInv, PairInv, Travels, HandleInit, HandleResponse, HandleTransport, Excused;
    assert forall p: Peer :: Excused(Quiet(p)) by { NothingFails(); }
    var q := s.peer.(clocks := s.peer.clocks.(lastReceived := now));
    var u := s.(peer := q);
    ChannelFrames.ClocksDoNotMatter(s, q);
    ChannelFrames.ClocksDoNotMatterToPairs(s, q, other);
    PairGrows(other, s, u);
    TravelsStill(packet, s, u, other);
    match packet
    case Punch =>
      NothingFails();
    case Init(hello) =>
      if !q.id.initiator {
        InitArrives(u, other, hello, now);
        NoErrorIsExcused(HandleInit(q, hello, now));
      }
    case Response(reply) =>
      if q.id.initiator && q.link.transport.None? {
        ResponseArrives(u, other, reply, now);
        NoErrorIsExcused(HandleResponse(q, reply, now));
      }
    case Transport(sequence, body) =>
      if q.link.transport.Some? {
        TransportIsExcused(u, other, sequence, body);
      }
    case _ =>
  }

  lemma NothingFails()
    ensures forall p: Peer, sent: seq<Packet> :: Excused(Effect(p, sent, [], None))
  {
  }

  lemma NoErrorIsExcused(e: Effect)
    requires e.error.None?
    ensures Excused(e)
  {
  }

  lemma TravelsStill(packet: Packet, s: Side, u: Side, other: Side)
    requires Travels(packet, s, other) && u.sent == s.sent
    ensures Travels(packet, u, other)
  {
  }

  lemma ArrivalIsExcused(s: Side, other: Side, packet: Packet, now: Instant)
    requires SideInv(s) && SideInv(other) && PairInv(s, other) && PairInv(other, s) && s.status == Live
    requires Travels(packet, s, other)
    ensures Excused(Receive(s.peer, packet, now))
  {
    hide SideInv, PairInv, Travels, HandlePacket;
    var (q, allowed) := AllowPacket(s.peer, now);
    var u := s.(peer := q);
    assert ChannelFrames.SameButClocks(s.peer, q);
    hide AllowPacket;
    ChannelFrames.ClocksDoNotMatter(s, q);
    ChannelFrames.ClocksDoNotMatterToPairs(s, q, other);
    PairGrows(other, s, u);
    TravelsStill(packet, s, u, other);
    if allowed {
      PacketIsExcused(u, other, packet, now);
    }
  }

  lemma SayIsExcused(s: Side, text: string, now: Instant)
    requires Handshaked(s.peer)
    ensures Excused(SendMessage(s.peer, text, now))
  {
    var id := s.peer.outbox.nextMessageId;
    if IsMessageText(text) && s.peer.link.connected {
      SealIsExcused(s.peer.(outbox := s.peer.outbox.(nextMessageId := NextId(id))), Message(id, text));
    }
    hide Seal, Encode, IsMessageText;
  }

  ghost predicate TextsFit(p: Peer, ids: seq<u64>) {
    forall id | id in ids && id in p.outbox.pending :: IsMessageText(p.outbox.pending[id].text)
  }

  lemma RetryOneIsExcused(p: Peer, id: u64, now: Instant)
    requires p.link.transport.Some? && TextsFit(p, [id])
    ensures Excused(RetryOne(p, id, now))
  {
    if id in p.outbox.pending {
      assert id in [id];
      SealIsExcused(p.(outbox := p.outbox.(pending := p.outbox.pending - {id})), Message(id, p.outbox.pending[id].text));
      hide Seal, Encode;
    }
  }

  lemma {:induction false} RetriesAreExcused(p: Peer, due: seq<u64>, now: Instant)
    requires AllDue(p, due, now) && TextsFit(p, due) && (due != [] ==> p.link.transport.Some?)
    ensures Excused(RetryAll(p, due, now))
  {
    hide RetryOne;
    if due != [] {
      var front, id := due[..|due| - 1], due[|due| - 1];
      var e := RetryAll(p, front, now);
      AllDueFront(p, due, now);
      assert id in due && forall n | n in front :: n in due;
      RetriesAreExcused(p, front, now);
      RetryAllFrame(p, front, now);
      RetryOneIsExcused(e.peer, id, now);
    }
  }

  lemma UpkeepIsExcused(p: Peer, now: Instant)
    requires IsNickname(p.id.localNickname) && (p.link.connected ==> p.link.transport.Some?)
    ensures Excused(Handshake(p, now)) && Excused(SendHeartbeat(p, now))
  {
    hide IsNickname;
    if p.link.transport.Some? {
      SealIsExcused(p, Ready(p.id.localNickname));
      SealIsExcused(p, Heartbeat);
    }
    hide Seal, Encode;
  }

  lemma PendingTexts(s: Side, due: seq<u64>)
    requires Accounts(s)
    ensures TextsFit(s.peer, due)
  {
    forall id | id in due && id in s.peer.outbox.pending ensures IsMessageText(s.peer.outbox.pending[id].text) {
      PendingText(s, id);
    }
  }

  lemma TickIsExcused(s: Side, due: seq<u64>, now: Instant)
    requires SideInv(s) && s.status == Live && AllDue(s.peer, due, now)
    ensures Excused(PeerModel.Tick(s.peer, due, now).effect)
  {
    hide Connects, Traffic, Receipts, AnnouncedInOrder, Accounts, Represents, Asks, AllDue, TextsFit, IsNickname;
    var (q, action) := ConnectionAction(s.peer, now);
    assert Handshaked(s.peer);
    PendingTexts(s, due);
    if due != [] {
      ChannelTicks.DueNeedsTransport(s, due, now);
    }
    if action == Continue {
      MaintainIsExcused(q, due, now);
    }
  }

  lemma MaintainIsExcused(p: Peer, due: seq<u64>, now: Instant)
    requires IsNickname(p.id.localNickname) && (p.link.connected ==> p.link.transport.Some?)
    requires AllDue(p, due, now) && TextsFit(p, due) && (due != [] ==> p.link.transport.Some?)
    ensures Excused(Maintain(p, due, now).effect)
  {
    hide Handshake, SendHeartbeat, RetryAll, AllDue, TextsFit, IsNickname, Excused;
    var e := Handshake(p, now);
    var f := e.Then(SendHeartbeat(e.peer, now));
    ChannelTicks.UpkeepFrame(p, now);
    ChannelTicks.UpkeepFrame(e.peer, now);
    UpkeepIsExcused(p, now);
    UpkeepIsExcused(e.peer, now);
    SameOutbox(p, f.peer, due, now);
    RetriesAreExcused(f.peer, due, now);
    ThenIsExcused(e, SendHeartbeat(e.peer, now));
    ThenIsExcused(f, RetryAll(f.peer, due, now));
  }

  lemma ThenIsExcused(e: Effect, f: Effect)
    requires Excused(f)
    ensures Excused(e.Then(f))
  {
  }

  lemma SameOutbox(p: Peer, q: Peer, due: seq<u64>, now: Instant)
    requires p.outbox == q.outbox && AllDue(p, due, now) && TextsFit(p, due)
    ensures AllDue(q, due, now) && TextsFit(q, due)
  {
  }

  lemma StepIsExcused(s: Side, other: Side, sys: System, step: Step)
    requires SideInv(s) && SideInv(other) && PairInv(s, other) && PairInv(other, s)
    requires s == sys.Get(step.who) && other == sys.Get(step.who.Other()) && Enabled(sys, step)
    ensures
      var t := Apply(sys, step).Get(step.who);
      t.status == Broken ==> t.peer.sendSequence == MAX_U64
  {
    hide SideInv, PairInv, Receive, SendMessage, PeerModel.Tick, DueIds, Enumerates, FailPending;
    match step
    case Arrive(_, packet, now) =>
      ArrivalIsExcused(s, other, packet, now);
    case Tick(_, due, now) =>
      ChannelTicks.EnumeratedAreDue(s.peer, due, now);
      TickIsExcused(s, due, now);
    case Say(_, text, now) =>
      NameAndHandshake(s);
      SayIsExcused(s, text, now);
    case Close(_, order, _) =>
      CloseIsExcused(s, order);
  }

  lemma CloseIsExcused(s: Side, order: seq<u64>)
    ensures CloseAt(s, order).status == Closed
  {
  }

  lemma NameAndHandshake(s: Side)
    requires SideInv(s)
    ensures Handshaked(s.peer) && IsNickname(s.peer.id.localNickname)
  {
  }

  /** Whatever order packets arrive in and however often they repeat, no handler of an honest
      pair returns an error before its sequence counter is used up. */
  lemma OnlyExhaustionFails(p: Pairing, sys: System, step: Step)
    requires Reachable(p, sys) && Enabled(sys, step)
    ensures
      var t := Apply(sys, step).Get(step.who);
      t.status == Broken ==> t.peer.sendSequence == MAX_U64
  {
    hide SideInv, PairInv, Reachable, Enabled, Apply;
    ChannelTheorems.ReachableSides(p, sys, step.who);
    StepIsExcused(sys.Get(step.who), sys.Get(step.who.Other()), sys, step);
  }

  // --- One round trip connects ---------------------------------------------------------

  /** What the side sends next, if it seals `plain`. */
  function NextSealed(p: Peer, plain: Plain): Packet
    requires p.link.transport.Some?
  {
    Transport(p.sendSequence, Sealed(p.link.transport.value, p.id.initiator, p.sendSequence, Encode(plain)))
  }

  /** A packet sealed after everything accepted so far is opened and handled. */
  lemma FreshArrives(s: Side, other: Side, from: Peer, plain: Plain, now: Instant) returns (q: Peer)
    requires SideInv(s) && PairInv(s, other) && PairInv(other, s)
    requires s.peer.link.transport.Some? && other.peer.link.transport.Some?
    requires from.link.transport == other.peer.link.transport && from.id == other.peer.id
    requires forall n | n in s.accepted :: n < from.sendSequence
    requires Sendable(plain) && AllowPacket(s.peer, now).1
    ensures q == s.peer.(clocks := AllowPacket(s.peer, now).0.clocks.(lastReceived := now), replay := q.replay)
    ensures Admits(s.peer, NextSealed(from, plain), now)
    ensures Receive(s.peer, NextSealed(from, plain), now) == HandlePlain(q, plain)
  {
    hide Handshaked, Connects, Traffic, Receipts, AnnouncedInOrder, Accounts, Asks, HandlePlain, Record, Encode, Parse, WouldAccept;
    var sequence := from.sendSequence;
    assert CommonSession(s.peer, other.peer) == CommonSession(other.peer, s.peer);
    assert Represents(s.peer.replay, s.accepted);
    AboveAllIsFresh(s.peer.replay, s.accepted, sequence);
    hide Represents;
    PlainRoundTrip(plain);
    var p := AllowPacket(s.peer, now).0;
    q := p.(clocks := p.clocks.(lastReceived := now), replay := Record(s.peer.replay, sequence));
  }

  lemma AcceptedIsOlder(s: Side, other: Side)
    requires PairInv(s, other)
    ensures forall n | n in s.accepted :: n < other.peer.sendSequence
  {
  }

  lemma AboveAllIsFresh(w: Window, recorded: set<u64>, sequence: u64)
    requires Represents(w, recorded) && forall n | n in recorded :: n < sequence
    ensures WouldAccept(w, sequence)
  {
    AcceptsExactlyTheFresh(w, recorded, sequence);
  }

  /** The first packet of a tick that repeats READY. */
  lemma TickRepeatsReady(p: Peer, due: seq<u64>, now: Instant)
    requires p.link.transport.Some? && !p.link.connected
    requires ConnectionAction(p, now).1 == Continue && Since(now, p.clocks.lastReadySend) >= 500 * MILLISECOND
    requires PeerModel.Tick(p, due, now).effect.error.None?
    ensures
      var e := PeerModel.Tick(p, due, now).effect;
      && e.sent != [] && e.sent[0] == NextSealed(p, Ready(p.id.localNickname))
      && e.peer.link == p.link && e.peer.id == p.id
  {
    TickLearnsNothing(p, due, now);
    var e := Handshake(p, now);
    assert e.error.None? ==> e.sent == [NextSealed(p, Ready(p.id.localNickname))] by {
      hide Encode;
    }
    hide Handshake, SendHeartbeat, RetryAll, NextSealed;
  }

  /** A fresh READY is answered at once. */
  lemma ReadyAnswered(p: Peer, nickname: string)
    requires p.link.transport.Some? && HandlePlain(p, Ready(nickname)).error.None?
    ensures
      var e := HandlePlain(p, Ready(nickname));
      && e.sent == [NextSealed(p, ReadyAck)]
      && e.peer.link.readyReceived && e.peer.id == p.id && e.peer.link.transport == p.link.transport
  {
    hide Encode;
  }

  lemma AckConnects(p: Peer)
    requires p.link.readyReceived ==> p.link.peerNickname.Some?
    ensures
      var e := HandlePlain(p, ReadyAck);
      e.error.None? && e.peer.link.readyAcked && (p.link.readyReceived ==> e.peer.link.connected)
  {
  }

  lemma SidesOf(sys: System, who: Party)
    requires SystemInv(sys)
    ensures SideInv(sys.Get(who)) && SideInv(sys.Get(who.Other()))
    ensures PairInv(sys.Get(who), sys.Get(who.Other())) && PairInv(sys.Get(who.Other()), sys.Get(who))
  {
    hide SideInv, PairInv, Timely;
  }

  /** A repeated READY reaches the other side and is answered. */
  lemma ReadyIsAnswered(a: Side, b: Side, now: Instant)
    requires SideInv(a) && PairInv(a, b) && PairInv(b, a)
    requires a.peer.link.transport.Some? && b.peer.link.transport.Some? && IsNickname(b.peer.id.localNickname)
    requires AllowPacket(a.peer, now).1 && a.status == Live
    requires ArriveAt(a, NextSealed(b.peer, Ready(b.peer.id.localNickname)), now).status == Live
    ensures
      var t := ArriveAt(a, NextSealed(b.peer, Ready(b.peer.id.localNickname)), now);
      && NextSealed(a.peer, ReadyAck) in t.sent
      && t.peer.link.readyReceived
  {
    hide SideInv, PairInv, IsNickname, Encode, HandlePlain, AllowPacket, Receive;
    var nickname := b.peer.id.localNickname;
    var packet := NextSealed(b.peer, Ready(nickname));
    AcceptedIsOlder(a, b);
    var q := FreshArrives(a, b, b.peer, Ready(nickname), now);
    ReadyAnswered(q, nickname);
    var t := ArriveAt(a, packet, now);
    assert t.sent == a.sent + [NextSealed(a.peer, ReadyAck)];
  }

  lemma AckIsTaken(b: Side, a: Side, from: Peer, now: Instant)
    requires SideInv(b) && PairInv(a, b) && PairInv(b, a)
    requires a.peer.link.transport.Some? && b.peer.link.transport.Some?
    requires from.link.transport == a.peer.link.transport && from.id == a.peer.id && from.sendSequence == a.peer.sendSequence
    requires AllowPacket(b.peer, now).1 && b.status == Live
    ensures
      var t := ArriveAt(b, NextSealed(from, ReadyAck), now);
      && t.status == Live && t.peer.link.readyAcked
      && (b.peer.link.readyReceived ==> t.peer.link.connected)
  {
    assert Handshaked(b.peer);
    AcceptedIsOlder(b, a);
    hide SideInv, PairInv, Encode, HandlePlain, AllowPacket, Receive;
    var q := FreshArrives(b, a, from, ReadyAck, now);
    AckConnects(q);
  }

  /** The steps of one round trip: `who` repeats READY, the other side answers it, and the
      answer arrives. */
  datatype RoundTrip = RoundTrip(who: Party, due: seq<u64>, repeated: Instant, answered: Instant, arrived: Instant) {
    function Repeat(): Step {
      Tick(who, due, repeated)
    }

    function Answer(sys: System): Step
      requires sys.Get(who).peer.link.transport.Some?
    {
      var b := sys.Get(who).peer;
      Arrive(who.Other(), NextSealed(b, Ready(b.id.localNickname)), answered)
    }

    function Return(sys: System): Step
      requires sys.Get(who.Other()).peer.link.transport.Some?
    {
      Arrive(who, NextSealed(sys.Get(who.Other()).peer, ReadyAck), arrived)
    }

    /** Both ends are up and have a transport, and READY is due again at `who`. */
    ghost predicate Due(sys: System) {
      var b, a := sys.Get(who), sys.Get(who.Other());
      && Enabled(sys, Repeat()) && repeated <= answered <= arrived && a.peer.id.startedAt <= answered
      && a.status == Live && b.peer.link.transport.Some? && a.peer.link.transport.Some? && !b.peer.link.connected
      && ConnectionAction(b.peer, repeated).1 == Continue
      && Since(repeated, b.peer.clocks.lastReadySend) >= 500 * MILLISECOND
    }

    /** The sends succeed and neither packet is dropped by the rate limit. */
    ghost predicate Succeeds(sys: System)
      requires sys.Get(who).peer.link.transport.Some?
    {
      var b, a := Apply(sys, Repeat()).Get(who), sys.Get(who.Other());
      && b.status == Live
      && AllowPacket(a.peer, answered).1
      && ArriveAt(a, Answer(sys).packet, answered).status == Live
      && AllowPacket(b.peer, arrived).1
    }

    function Outcome(sys: System): System
      requires sys.Get(who).peer.link.transport.Some? && sys.Get(who.Other()).peer.link.transport.Some?
    {
      Apply(Apply(Apply(sys, Repeat()), Answer(sys)), Return(sys))
    }
  }

  lemma RepeatSends(s: Side, due: seq<u64>, now: Instant)
    requires s.status == Live && s.peer.link.transport.Some? && !s.peer.link.connected
    requires ConnectionAction(s.peer, now).1 == Continue && Since(now, s.peer.clocks.lastReadySend) >= 500 * MILLISECOND
    requires TickAt(s, due, now).status == Live
    ensures
      var t := TickAt(s, due, now);
      && NextSealed(s.peer, Ready(s.peer.id.localNickname)) in t.sent
      && t.peer.link == s.peer.link && t.peer.id == s.peer.id
  {
    hide ConnectionAction, PeerModel.Tick, NextSealed;
    var e := PeerModel.Tick(s.peer, due, now).effect;
    TickRepeatsReady(s.peer, due, now);
    assert TickAt(s, due, now).sent == s.sent + e.sent;
    assert (s.sent + e.sent)[|s.sent|] == e.sent[0];
  }

  /** A round trip that goes through gives the side that repeated READY its acknowledgement;
      a side that lacked nothing else is then connected. */
  lemma RoundTripConnects(p: Pairing, sys: System, trip: RoundTrip)
    requires Reachable(p, sys) && trip.Due(sys) && trip.Succeeds(sys)
    ensures
      var after := Apply(sys, trip.Repeat());
      Enabled(after, trip.Answer(sys)) && Enabled(Apply(after, trip.Answer(sys)), trip.Return(sys))
    ensures
      var b, a := trip.Outcome(sys).Get(trip.who), trip.Outcome(sys).Get(trip.who.Other());
      && b.status == Live && b.peer.link.readyAcked && a.peer.link.readyReceived
      && (sys.Get(trip.who).peer.link.readyReceived ==> b.peer.link.connected)
  {
    hide SideInv, PairInv, Reachable, SystemInv, TickAt, ArriveAt, ConnectionAction, AllowPacket, NextSealed, DueIds, Enumerates;
    var b, a := sys.Get(trip.who), sys.Get(trip.who.Other());
    var sys1 := Apply(sys, trip.Repeat());
    var b1 := sys1.Get(trip.who);
    ChannelTheorems.ReachableInv(p, sys);
    ApplyKeepsInv(sys, trip.Repeat());
    SidesOf(sys, trip.who);
    SidesOf(sys1, trip.who);
    RepeatSends(b, trip.due, trip.repeated);
    NameAndHandshake(b);
    ReadyIsAnswered(a, b, trip.answered);
    AckIsTaken(b1, a, a.peer, trip.arrived);
  }

  /** A connection that only one side knows of is completed by the other side's next
      successful round trip. */
  lemma OneRoundTripHeals(p: Pairing, sys: System, trip: RoundTrip)
    requires Reachable(p, sys) && trip.Due(sys) && trip.Succeeds(sys)
    requires sys.Get(trip.who.Other()).peer.link.connected
    ensures trip.Outcome(sys).Get(trip.who).peer.link.connected
  {
    hide Reachable, Enabled, Apply, ConnectionAction, AllowPacket, NextSealed;
    ChannelTheorems.ConnectionAgreement(p, sys, trip.who.Other());
    RoundTripConnects(p, sys, trip);
  }
}
