/** What ticks do, said in the open: when a heartbeat, a handshake packet or a READY is sent, when
    the server is asked for IPv4, and when each message is sent again or given up. */
module ChannelUpkeep {
  import opened Prelude
  import opened Protocol
  import opened Plaintext
  import opened PeerModel
  import opened Channel
  import opened ChannelInvariant
  import opened ChannelFrames
  import opened ChannelSends
  import ChannelPairs
  import Replay
  import ChannelTicks
  import opened ChannelTheorems
  import opened ChannelProgress
  import ChannelClocks
  import ChannelDelivery
  import ChannelDraining
  import Utf8

  // --- Heartbeats ----------------------------------------------------------------------

  predicate IsHeartbeat(packet: Packet) {
    packet.Transport? && packet.body.Sealed? && Parse(packet.body.plaintext) == Some(Heartbeat)
  }

  ghost predicate NoHeartbeat(sent: seq<Packet>) {
    forall packet | packet in sent :: !IsHeartbeat(packet)
  }

  lemma OneIsNoHeartbeat(p: Peer, id: u64, now: Instant)
    requires p.link.transport.Some? && TextsFit(p, [id])
    ensures NoHeartbeat(RetryOne(p, id, now).sent)
  {
    if id in p.outbox.pending {
      assert id in [id];
      PlainRoundTrip(Message(id, p.outbox.pending[id].text));
      hide Encode, Parse;
    }
  }

  lemma {:induction false} RetriesAreNoHeartbeats(p: Peer, due: seq<u64>, now: Instant)
    requires AllDue(p, due, now) && TextsFit(p, due) && (due != [] ==> p.link.transport.Some?)
    ensures NoHeartbeat(RetryAll(p, due, now).sent)
  {
    hide RetryOne, IsHeartbeat;
    if due != [] {
      var front, id := due[..|due| - 1], due[|due| - 1];
      var e := RetryAll(p, front, now);
      AllDueFront(p, due, now);
      assert id in due && forall n | n in front :: n in due;
      RetriesAreNoHeartbeats(p, front, now);
      RetryAllFrame(p, front, now);
      OneIsNoHeartbeat(e.peer, id, now);
    }
  }

  /** The heartbeat on its own. */
  lemma BeatAlone(p: Peer, now: Instant)
    requires p.link.connected && p.link.transport.Some? && SendHeartbeat(p, now).error.None?
    ensures
      var e := SendHeartbeat(p, now);
      if Since(now, p.clocks.lastHeartbeatSend) >= 30 * SECOND then
        && |e.sent| == 1 && IsHeartbeat(e.sent[0]) && e.sent[0].sequence == p.sendSequence
        && e.peer.clocks == p.clocks.(lastHeartbeatSend := now)
      else e == Quiet(p)
  {
    SealShape(p, Encode(Heartbeat));
    PlainRoundTrip(Heartbeat);
    hide Encode, Parse;
  }

  /** A connected side's tick, when it goes through: first the heartbeat, if 30 s have passed
      since the last one, then the retransmissions. */
  lemma ConnectedTick(p: Peer, due: seq<u64>, now: Instant)
    requires p.link.connected && p.link.transport.Some?
    requires var r := PeerModel.Tick(p, due, now); r.action == Continue && r.effect.error.None?
    ensures
      var r, f := PeerModel.Tick(p, due, now), SendHeartbeat(p, now);
      && f.error.None? && f.peer.outbox == p.outbox && f.peer.link == p.link && f.peer.id == p.id
      && r.effect.sent == f.sent + RetryAll(f.peer, due, now).sent
      && r.effect.events == RetryAll(f.peer, due, now).events
      && r.effect.peer == RetryAll(f.peer, due, now).peer
      && RetryAll(f.peer, due, now).error.None?
  {
    ChannelTicks.UpkeepFrame(p, now);
    assert ConnectionAction(p, now) == (p, Continue) && Handshake(p, now) == Quiet(p);
    hide SendHeartbeat, RetryAll, Handshake;
    var f := SendHeartbeat(p, now);
    assert [] + f.sent == f.sent && [] + f.events == f.events;
  }

  /** A tick of a connected side that goes through sends a heartbeat, under a sequence not used
      before, if and only if the last one was sent 30 seconds ago or more. */
  lemma HeartbeatIsSent(p: Pairing, sys: System, who: Party, due: seq<u64>, now: Instant)
    requires Reachable(p, sys) && Enabled(sys, Tick(who, due, now)) && sys.Get(who).peer.link.connected
    requires var r := PeerModel.Tick(sys.Get(who).peer, due, now); r.action == Continue && r.effect.error.None?
    ensures Beaten(sys.Get(who), TickAt(sys.Get(who), due, now), now)
  {
    hide SideInv, PairInv, Reachable, PeerModel.Tick, TickAt, Beaten, Enumerates, DueIds;
    ReachableSides(p, sys, who);
    BeatsOnTick(sys.Get(who), due, now);
  }

  /** `t` is `s` after a tick as far as heartbeats go. */
  ghost predicate Beaten(s: Side, t: Side, now: Instant) {
    && s.sent <= t.sent
    && if Since(now, s.peer.clocks.lastHeartbeatSend) >= 30 * SECOND then
         && (exists packet :: packet in t.sent[|s.sent|..] && IsHeartbeat(packet) && packet.sequence >= s.peer.sendSequence)
         && t.peer.clocks.lastHeartbeatSend == now
       else
         && NoHeartbeat(t.sent[|s.sent|..])
         && t.peer.clocks.lastHeartbeatSend == s.peer.clocks.lastHeartbeatSend
  }

  lemma ConnectedHasTransport(s: Side)
    requires SideInv(s)
    ensures s.peer.link.connected ==> s.peer.link.transport.Some?
  {
  }

  lemma BeatsOnTick(s: Side, due: seq<u64>, now: Instant)
    requires SideInv(s) && s.status == Live && s.peer.link.connected && Enumerates(due, DueIds(s.peer, now))
    requires var r := PeerModel.Tick(s.peer, due, now); r.action == Continue && r.effect.error.None?
    ensures Beaten(s, TickAt(s, due, now), now)
  {
    ConnectedHasTransport(s);
    assert Accounts(s);
    hide SideInv, Accounts, PeerModel.Tick, SendHeartbeat, RetryAll, IsHeartbeat, Enumerates, DueIds, TextsFit;
    var f := SendHeartbeat(s.peer, now);
    var r := PeerModel.Tick(s.peer, due, now);
    ConnectedTick(s.peer, due, now);
    BeatAlone(s.peer, now);
    EnumeratedDue(s, due, now);
    SameOutbox(s.peer, f.peer, due, now);
    RetriesAreNoHeartbeats(f.peer, due, now);
    RetryAllFrame(f.peer, due, now);
    var t := TickAt(s, due, now);
    assert t.sent[|s.sent|..] == r.effect.sent;
    if Since(now, s.peer.clocks.lastHeartbeatSend) >= 30 * SECOND {
      assert f.sent[0] in r.effect.sent;
    }
  }

  lemma EnumeratedDue(s: Side, due: seq<u64>, now: Instant)
    requires Accounts(s) && Enumerates(due, DueIds(s.peer, now))
    ensures AllDue(s.peer, due, now) && TextsFit(s.peer, due)
  {
    hide Accounts;
    ChannelTicks.EnumeratedAreDue(s.peer, due, now);
    PendingTexts(s, due);
  }

  // --- Handshake packets ---------------------------------------------------------------

  lemma OutboxStep(sys: System, step: Step, who: Party)
    requires Enabled(sys, step)
    ensures
      var s, t := sys.Get(who), Apply(sys, step).Get(who);
      !s.peer.link.connected && s.peer.outbox.pending == map[] ==> t.peer.outbox.pending == map[]
  {
    hide Receive, PeerModel.Tick, SendMessage, Enumerates, DueIds;
    var p := sys.Get(who).peer;
    if step.who == who && !p.link.connected && p.outbox.pending == map[] {
      match step
      case Arrive(_, packet, now) => ChannelDraining.ArrivalShrinks(p, packet, now);
      case Tick(_, due, now) => NothingToRepeat(p, due, now);
      case Say(_, text, now) => NotYetConnected(p, text, now);
      case Close(_, _, _) =>
    }
  }

  lemma NotYetConnected(p: Peer, text: string, now: Instant)
    requires !p.link.connected
    ensures SendMessage(p, text, now).peer == p
  {
  }

  lemma FirstIsListed(due: seq<u64>)
    ensures due != [] ==> due[0] in due
  {
  }

  /** Without pending messages a tick is its handshake and heartbeat parts. */
  lemma NothingToRepeat(p: Peer, due: seq<u64>, now: Instant)
    requires p.outbox.pending == map[] && Enumerates(due, DueIds(p, now))
    ensures due == [] && PeerModel.Tick(p, due, now).effect.peer.outbox == p.outbox
  {
    FirstIsListed(due);
    assert DueIds(p, now) == {};
    hide Handshake, SendHeartbeat;
    var q := ConnectionAction(p, now).0;
    ChannelTicks.UpkeepFrame(q, now);
    ChannelTicks.UpkeepFrame(Handshake(q, now).peer, now);
  }

  /** Before a side connects it has no message pending. */
  lemma {:induction false} UnconnectedIsIdle(p: Pairing, states: seq<System>, steps: seq<Step>, who: Party, i: nat)
    requires IsRunOf(p, states, steps) && i <= |steps|
    ensures !states[i].Get(who).peer.link.connected ==> states[i].Get(who).peer.outbox.pending == map[]
  {
    hide Enabled, Apply, ChannelPairs.SystemInv;
    if i > 0 {
      UnconnectedIsIdle(p, states, steps, who, i - 1);
      assert Leads(states, steps, i - 1);
      RunGrows(p, states, steps, who, i - 1);
      OutboxStep(states[i - 1], steps[i - 1], who);
    }
  }

  /** What an unconnected side's tick that goes through puts on the wire: until it has a
      transport, its INIT or a punch packet every 250 ms; from then on, its READY every
      500 ms; and nothing else. */
  lemma HandshakeRepeats(p: Pairing, sys: System, who: Party, due: seq<u64>, now: Instant)
    requires Reachable(p, sys) && Enabled(sys, Tick(who, due, now)) && !sys.Get(who).peer.link.connected
    requires var r := PeerModel.Tick(sys.Get(who).peer, due, now); r.action == Continue && r.effect.error.None?
    ensures
      var s, t := sys.Get(who).peer, TickAt(sys.Get(who), due, now);
      var put := t.sent[|sys.Get(who).sent|..];
      if s.link.transport.None? then
        if Since(now, s.clocks.lastHandshakeSend) >= 250 * MILLISECOND then
          && put == [if s.id.initiator then Init(Hello(s.id.context, s.id.key)) else Punch]
          && t.peer.clocks.lastHandshakeSend == now
        else
          put == []
      else
        if Since(now, s.clocks.lastReadySend) >= 500 * MILLISECOND then
          put == [NextSealed(s, Ready(s.id.localNickname))] && t.peer.clocks.lastReadySend == now
        else
          put == []
  {
    hide SideInv, PairInv, Reachable, PeerModel.Tick, Enumerates, DueIds, Handshaked;
    var s := sys.Get(who);
    IdleBeforeConnecting(p, sys, who);
    ReachableSides(p, sys, who);
    FollowsHandshake(s);
    UnconnectedTick(s.peer, due, now);
    assert TickAt(s, due, now).sent[|s.sent|..] == PeerModel.Tick(s.peer, due, now).effect.sent;
  }

  lemma FollowsHandshake(s: Side)
    requires SideInv(s)
    ensures Handshaked(s.peer)
  {
  }

  lemma IdleBeforeConnecting(p: Pairing, sys: System, who: Party)
    requires Reachable(p, sys) && !sys.Get(who).peer.link.connected
    ensures sys.Get(who).peer.outbox.pending == map[]
  {
    var states, steps :| IsRunOf(p, states, steps) && states[|steps|] == sys;
    hide IsRunOf;
    UnconnectedIsIdle(p, states, steps, who, |steps|);
  }

  lemma UnconnectedTick(p: Peer, due: seq<u64>, now: Instant)
    requires Handshaked(p) && !p.link.connected && p.outbox.pending == map[] && Enumerates(due, DueIds(p, now))
    requires var r := PeerModel.Tick(p, due, now); r.action == Continue && r.effect.error.None?
    ensures
      var e := PeerModel.Tick(p, due, now).effect;
      if p.link.transport.None? then
        if Since(now, p.clocks.lastHandshakeSend) >= 250 * MILLISECOND then
          && e.sent == [if p.id.initiator then Init(Hello(p.id.context, p.id.key)) else Punch]
          && e.peer.clocks.lastHandshakeSend == now
        else
          e.sent == []
      else
        if Since(now, p.clocks.lastReadySend) >= 500 * MILLISECOND then
          e.sent == [NextSealed(p, Ready(p.id.localNickname))] && e.peer.clocks.lastReadySend == now
        else
          e.sent == []
  {
    NothingToRepeat(p, due, now);
    var q := ConnectionAction(p, now).0;
    HandshakePart(q, now);
    ChannelTicks.UpkeepFrame(q, now);
    hide Enumerates, DueIds, Handshake, Handshaked;
    var e := Handshake(q, now);
    if e.error.None? {
      assert SendHeartbeat(e.peer, now) == Quiet(e.peer) && RetryAll(e.peer, [], now) == Quiet(e.peer);
      assert e.sent + [] + [] == e.sent;
    }
    if p.link.transport.Some? {
      SealedLikewise(p, q, Ready(p.id.localNickname));
    }
  }

  lemma SealedLikewise(p: Peer, q: Peer, plain: Plain)
    requires p.link.transport.Some? && q == p.(lastIpv4Retry := q.lastIpv4Retry)
    ensures NextSealed(q, plain) == NextSealed(p, plain)
  {
  }

  /** The part of a tick that repeats the handshake packet or READY. */
  lemma HandshakePart(p: Peer, now: Instant)
    requires !p.link.connected && p.link.initialPacket == if p.id.initiator then Some(Init(Hello(p.id.context, p.id.key))) else None
    ensures
      var e := Handshake(p, now);
      if p.link.transport.None? then
        && e.error.None?
        && if Since(now, p.clocks.lastHandshakeSend) >= 250 * MILLISECOND then
             && e.sent == [if p.id.initiator then Init(Hello(p.id.context, p.id.key)) else Punch]
             && e.peer.clocks.lastHandshakeSend == now
           else
             e.sent == []
      else if Since(now, p.clocks.lastReadySend) >= 500 * MILLISECOND then
        e.error.None? ==> e.sent == [NextSealed(p, Ready(p.id.localNickname))] && e.peer.clocks.lastReadySend == now
      else
        e == Quiet(p)
  {
    if p.link.transport.Some? {
      ReadyAlone(p, now);
    }
    hide SendReady;
  }

  lemma ReadyAlone(p: Peer, now: Instant)
    requires p.link.transport.Some?
    ensures
      var e := SendReady(p, now);
      e.error.None? ==> e.sent == [NextSealed(p, Ready(p.id.localNickname))] && e.peer.clocks.lastReadySend == now
  {
    hide Encode;
  }

  /** The first tick sends the handshake packet at once. */
  lemma FirstTickSends(p: Pairing, who: Party, due: seq<u64>, now: Instant)
    requires p.Valid() && Enabled(Start(p), Tick(who, due, now))
    requires PeerModel.Tick(Start(p).Get(who).peer, due, now).action == Continue
    ensures
      var e := PeerModel.Tick(Start(p).Get(who).peer, due, now).effect;
      e.error.None? && e.sent == [if who == Initiator then Init(Hello(p.context, p.initiatorKey)) else Punch]
  {
    var s := Start(p).Get(who).peer;
    assert who == Initiator <==> s.id.initiator;
    FreshPeerTicks(s, due, now);
  }

  lemma FreshPeerTicks(p: Peer, due: seq<u64>, now: Instant)
    requires p == NewPeer(p.id.context, p.id.initiator, p.id.key, p.id.ipv6, p.id.localNickname, p.id.startedAt)
    requires p.id.startedAt <= now && Enumerates(due, DueIds(p, now))
    requires PeerModel.Tick(p, due, now).action == Continue
    ensures
      var e := PeerModel.Tick(p, due, now).effect;
      e.error.None? && e.sent == [if p.id.initiator then Init(Hello(p.id.context, p.id.key)) else Punch]
  {
    NothingToRepeat(p, due, now);
    hide Enumerates, DueIds;
  }

  // --- Handshake messages --------------------------------------------------------------

  /** A responder's first INIT: read, it is answered at once with RESPONSE and READY; not read,
      it ends the attempt. Only a private room authenticates it. */
  lemma HelloIsJudged(s: Side, hello: Hello, now: Instant)
    requires SideInv(s) && !s.peer.id.initiator && s.peer.link.transport.None? && s.status == Live && AllowPacket(s.peer, now).1
    ensures
      var t, id := ArriveAt(s, Init(hello), now), s.peer.id;
      if hello.Hello? && (id.context.security.Public? || hello.context == id.context) then
        var session := Session(id.context, hello.key, id.key);
        && t.status == Live && t.peer.link.transport == Some(session)
        && t.sent == s.sent + [Response(Reply(session)), Transport(0, Sealed(session, false, 0, Encode(Ready(id.localNickname))))]
      else
        t.status == Broken && t.sent == s.sent && t.peer.link.transport.None? && !t.peer.link.handshake
  {
    FollowsHandshake(s);
    var q := AllowPacket(s.peer, now).0;
    ChannelDelivery.AllowKeepsRest(s.peer, now);
    hide SideInv, AllowPacket, Handshaked, Encode;
    BeforeHandshake(s.peer);
    if hello.Hello? {
      var session := Session(s.peer.id.context, hello.key, s.peer.id.key);
      FirstReadyIs(Adopted(q.(clocks := q.clocks.(lastReceived := now)), session, Some(Response(Reply(session)))), session, now);
    }
    hide SendReady, IsNickname;
    assert s.sent + [] == s.sent;
  }

  /** An initiator's RESPONSE: one to its own INIT is followed at once by READY; any other ends
      the attempt. */
  lemma ReplyIsJudged(s: Side, reply: Reply, now: Instant)
    requires SideInv(s) && s.peer.id.initiator && s.peer.link.transport.None? && s.status == Live && AllowPacket(s.peer, now).1
    ensures
      var t, id := ArriveAt(s, Response(reply), now), s.peer.id;
      if reply.Reply? && reply.session.context == id.context && reply.session.initiatorKey == id.key then
        && t.status == Live && t.peer.link.transport == Some(reply.session)
        && t.sent == s.sent + [Transport(0, Sealed(reply.session, true, 0, Encode(Ready(id.localNickname))))]
      else
        t.status == Broken && t.sent == s.sent && t.peer.link.transport.None? && !t.peer.link.handshake
  {
    FollowsHandshake(s);
    var q := AllowPacket(s.peer, now).0;
    ChannelDelivery.AllowKeepsRest(s.peer, now);
    hide SideInv, AllowPacket, Handshaked, Encode;
    BeforeHandshake(s.peer);
    if reply.Reply? {
      FirstReadyIs(Adopted(q.(clocks := q.clocks.(lastReceived := now)), reply.session, q.link.responsePacket), reply.session, now);
    }
    hide SendReady, IsNickname;
    assert s.sent + [] == s.sent;
  }

  lemma BeforeHandshake(p: Peer)
    requires Handshaked(p) && p.link.transport.None?
    ensures p.link.handshake && p.link.responsePacket.None? && p.sendSequence == 0 && IsNickname(p.id.localNickname)
  {
  }

  lemma FirstReadyIs(p: Peer, session: PeerModel.Session, now: Instant)
    requires p.link.transport == Some(session) && p.sendSequence == 0 && IsNickname(p.id.localNickname)
    ensures
      var e := SendReady(p, now);
      && e.error.None? && e.peer.link == p.link
      && e.sent == [Transport(0, Sealed(session, p.id.initiator, 0, Encode(Ready(p.id.localNickname))))]
  {
    SealFailsOnlyAtTheEnd(p, Ready(p.id.localNickname));
    hide Encode, IsNickname;
  }

  /** A transport packet is taken if and only if its sequence was not accepted before and nothing
      128 or more above it was, and it was sealed under the session, by the other side, under
      that sequence; then its sequence is accepted, and a plaintext that means nothing ends the
      connection. Otherwise only clocks move. */
  lemma TransportIsJudged(s: Side, sequence: u64, body: Sealed, now: Instant)
    requires SideInv(s) && s.peer.link.transport.Some? && s.status == Live && AllowPacket(s.peer, now).1
    ensures
      var t := ArriveAt(s, Transport(sequence, body), now);
      var unseen := sequence !in s.accepted && forall n | n in s.accepted :: n < sequence + 128;
      var genuine := body.Sealed? && body == Sealed(s.peer.link.transport.value, !s.peer.id.initiator, sequence, body.plaintext);
      if unseen && genuine then
        && t.accepted == s.accepted + {sequence}
        && (Parse(body.plaintext).None? ==> t.status == Broken && t.sent == s.sent && t.events == s.events)
      else
        t == s.(peer := s.peer.(clocks := t.peer.clocks))
  {
    hide SideInv, Replay.WouldAccept, AllowPacket, ArriveAt, Parse, Open;
    SequenceIsJudged(s, sequence);
    OpensGenuine(s.peer.link.transport.value, !s.peer.id.initiator, sequence, body);
    TransportTaken(s, sequence, body, now);
  }

  lemma TransportTaken(s: Side, sequence: u64, body: Sealed, now: Instant)
    requires s.peer.link.transport.Some? && s.status == Live && AllowPacket(s.peer, now).1
    ensures
      var t := ArriveAt(s, Transport(sequence, body), now);
      var content := Open(s.peer.link.transport.value, !s.peer.id.initiator, sequence, body);
      if Replay.WouldAccept(s.peer.replay, sequence) && content.Some? then
        && t.accepted == s.accepted + {sequence}
        && (Parse(content.value).None? ==> t.status == Broken && t.sent == s.sent && t.events == s.events)
      else
        t == s.(peer := s.peer.(clocks := t.peer.clocks))
  {
    ChannelDelivery.AllowKeepsRest(s.peer, now);
    hide Replay.WouldAccept, AllowPacket, HandlePlain, Parse, Replay.Record, Open;
    assert s.sent + [] == s.sent && s.events + [] == s.events;
  }

  lemma SequenceIsJudged(s: Side, sequence: u64)
    requires SideInv(s)
    ensures Replay.WouldAccept(s.peer.replay, sequence) <==>
            sequence !in s.accepted && forall n | n in s.accepted :: n < sequence + 128
  {
    assert Replay.Represents(s.peer.replay, s.accepted);
    hide SideInv, Replay.Represents, Replay.WouldAccept;
    Replay.AcceptsExactlyTheFresh(s.peer.replay, s.accepted, sequence);
  }

  lemma OpensGenuine(session: PeerModel.Session, fromInitiator: bool, sequence: u64, body: Sealed)
    ensures
      Open(session, fromInitiator, sequence, body) ==
      if body.Sealed? && body == Sealed(session, fromInitiator, sequence, body.plaintext) then Some(body.plaintext) else None
  {
  }

  // --- Injected packets ----------------------------------------------------------------

  /** Whatever an outsider can put on the wire moves clocks at most; a punch packet also
      draws the initiator's INIT once more. */
  lemma InjectionIsHarmless(p: Pairing, sys: System, who: Party, packet: Packet, now: Instant)
    requires Reachable(p, sys) && Enabled(sys, Arrive(who, packet, now)) && Injectable(packet)
    ensures
      var s, t := sys.Get(who), ArriveAt(sys.Get(who), packet, now);
      var looked := AllowPacket(s.peer, now).1;
      && t == s.(peer := s.peer.(clocks := t.peer.clocks), sent := t.sent)
      && t.peer.clocks.lastReceived == (if looked && !packet.Foreign? then now else s.peer.clocks.lastReceived)
      && t.sent ==
         if looked && packet.Punch? && s.peer.id.initiator then s.sent + [Init(Hello(s.peer.id.context, s.peer.id.key))]
         else s.sent
  {
    hide SideInv, PairInv, Reachable, ChannelPairs.Timely, Handshaked;
    ReachableSides(p, sys, who);
    FollowsHandshake(sys.Get(who));
    InjectedPacket(sys.Get(who), packet, now);
  }

  lemma InjectedPacket(s: Side, packet: Packet, now: Instant)
    requires Handshaked(s.peer) && s.status == Live && Injectable(packet)
    ensures
      var t := ArriveAt(s, packet, now);
      var looked := AllowPacket(s.peer, now).1;
      && t == s.(peer := s.peer.(clocks := t.peer.clocks), sent := t.sent)
      && t.peer.clocks.lastReceived == (if looked && !packet.Foreign? then now else s.peer.clocks.lastReceived)
      && t.sent ==
         if looked && packet.Punch? && s.peer.id.initiator then s.sent + [Init(Hello(s.peer.id.context, s.peer.id.key))]
         else s.sent
  {
    var q := AllowPacket(s.peer, now).0;
    ChannelClocks.AllowanceAlone(s.peer, now);
    ChannelDelivery.AllowKeepsRest(s.peer, now);
    hide AllowPacket;
    assert s.sent + [] == s.sent && s.events + [] == s.events;
  }

  // --- Requests for IPv4 ---------------------------------------------------------------

  /** An unconnected side asks for IPv4 on a tick if and only if it uses IPv6, from the third to
      before the tenth second after its start, and a second or more after it last asked. */
  lemma AsksWhen(p: Pairing, sys: System, who: Party, due: seq<u64>, now: Instant)
    requires Reachable(p, sys) && Enabled(sys, Tick(who, due, now)) && !sys.Get(who).peer.link.connected
    ensures
      var s, t := sys.Get(who), TickAt(sys.Get(who), due, now);
      t.asked ==
      if && s.peer.id.ipv6
         && 3 * SECOND <= now - s.peer.id.startedAt < 10 * SECOND
         && (s.asked == [] || now - s.asked[|s.asked| - 1] >= SECOND)
      then s.asked + [now] else s.asked
  {
    hide SideInv, PairInv, Reachable, Enumerates, DueIds, TickAt;
    ReachableSides(p, sys, who);
    AsksInOrder(sys.Get(who));
    AskOnTick(sys.Get(who), due, now);
  }

  lemma AsksInOrder(s: Side)
    requires SideInv(s)
    ensures Asks(s)
  {
  }

  lemma AskOnTick(s: Side, due: seq<u64>, now: Instant)
    requires Asks(s) && !s.peer.link.connected && s.peer.id.startedAt <= now
    ensures
      TickAt(s, due, now).asked ==
      if && s.peer.id.ipv6
         && 3 * SECOND <= now - s.peer.id.startedAt < 10 * SECOND
         && (s.asked == [] || now - s.asked[|s.asked| - 1] >= SECOND)
      then s.asked + [now] else s.asked
  {
    hide Handshake, SendHeartbeat, RetryAll;
    ChannelTicks.UpkeepFrame(ConnectionAction(s.peer, now).0, now);
  }

  // --- Messages ------------------------------------------------------------------------

  /** The waits before the second to the fifth transmission and before giving up, in
      milliseconds after the one before. */
  const WAITS: seq<int> := [500, 1000, 2000, 4000, 4000]

  /** A message is taken if and only if it has at most 500 characters and 1024 bytes, the side
      is connected and fewer than 64 messages are pending; it is then sent at once, announced,
      and due again after half a second. */
  lemma SayIsAnswered(p: Pairing, sys: System, who: Party, text: string, now: Instant)
    requires Reachable(p, sys) && sys.Get(who).status == Live && sys.Get(who).peer.sendSequence < MAX_U64
    ensures
      var s, t := sys.Get(who), SayAt(sys.Get(who), text, now);
      if |text| > 500 || |Utf8.Encode(text)| > 1024 then
        t == s.(events := s.events + [Refused(PeerModel.MessageTooLong)])
      else if !s.peer.link.connected then
        t == s.(events := s.events + [Refused(NotConnected)])
      else if |s.peer.outbox.pending| >= 64 then
        t == s.(events := s.events + [Refused(RateLimited)])
      else
        Announced(s, t, text, now)
  {
    hide PairInv, SideInv, Reachable, SayAt, Announced, ChannelPairs.Timely, Utf8.Encode;
    ReachableSides(p, sys, who);
    SayOutcome(sys.Get(who), text, now);
  }

  /** `t` is `s` after a text was taken: sent under the next sequence and announced under the
      next id, due again after half a second. */
  ghost predicate Announced(s: Side, t: Side, text: string, now: Instant) {
    var id := s.peer.outbox.nextMessageId;
    && t.status == s.status && s.peer.link.transport.Some?
    && t.events == s.events + [MessagePending(id, text)]
    && t.sent == s.sent + [NextSealed(s.peer, Message(id, text))]
    && t.peer.outbox.pending == s.peer.outbox.pending[id := PendingMessage(text, 0, now + WAITS[0] * MILLISECOND)]
    && t.peer.outbox.nextMessageId == id + 1
  }

  lemma SayOutcome(s: Side, text: string, now: Instant)
    requires SideInv(s) && s.status == Live && s.peer.sendSequence < MAX_U64
    ensures
      var t := SayAt(s, text, now);
      if |text| > 500 || |Utf8.Encode(text)| > 1024 then
        t == s.(events := s.events + [Refused(PeerModel.MessageTooLong)])
      else if !s.peer.link.connected then
        t == s.(events := s.events + [Refused(NotConnected)])
      else if |s.peer.outbox.pending| >= 64 then
        t == s.(events := s.events + [Refused(RateLimited)])
      else
        Announced(s, t, text, now)
  {
    hide SideInv, Utf8.Encode, SendMessage, Announced;
    SayRefused(s, text, now);
    if s.peer.link.connected {
      ConnectedHasTransport(s);
      SayTaken(s, text, now);
    }
  }

  lemma SayRefused(s: Side, text: string, now: Instant)
    ensures
      var t := SayAt(s, text, now);
      && (!IsMessageText(text) ==> t == s.(events := s.events + [Refused(PeerModel.MessageTooLong)]))
      && (IsMessageText(text) && !s.peer.link.connected ==> t == s.(events := s.events + [Refused(NotConnected)]))
      && (IsMessageText(text) && s.peer.link.connected && |s.peer.outbox.pending| >= 64 ==>
            t == s.(events := s.events + [Refused(RateLimited)]))
  {
    assert s.sent + [] == s.sent;
    hide Seal, Encode, IsMessageText;
  }

  lemma SayTaken(s: Side, text: string, now: Instant)
    requires SideInv(s) && s.status == Live && s.peer.sendSequence < MAX_U64
    requires s.peer.link.connected && s.peer.link.transport.Some?
    ensures IsMessageText(text) && |s.peer.outbox.pending| < 64 ==> Announced(s, SayAt(s, text, now), text, now)
  {
    assert Accounts(s) && Handshaked(s.peer);
    hide SideInv;
    IdsDoNotWrap(s);
    hide Accounts, Handshaked, IsMessageText, NextSealed, SendMessage;
    SaySeals(s.peer, text, now);
  }

  /** A connected peer takes a text it may send while its counter lasts. */
  lemma SaySeals(p: Peer, text: string, now: Instant)
    requires p.link.connected && p.link.transport.Some? && p.sendSequence < MAX_U64
    ensures
      var id := p.outbox.nextMessageId;
      IsMessageText(text) && |p.outbox.pending| < 64 ==>
        SendMessage(p, text, now) ==
        Effect(
          p.(outbox := Outbox(p.outbox.pending[id := PendingMessage(text, 0, now + 500 * MILLISECOND)], NextId(id)),
             sendSequence := p.sendSequence + 1),
          [NextSealed(p, Message(id, text))], [MessagePending(id, text)], None)
  {
    var id := p.outbox.nextMessageId;
    if IsMessageText(text) {
      SealFailsOnlyAtTheEnd(p.(outbox := p.outbox.(nextMessageId := NextId(id))), Message(id, text));
    }
    hide Encode, IsMessageText;
  }

  /** The entry `was` of a due message after its turn: given up, or due again later. */
  ghost predicate Rescheduled(was: PendingMessage, e: Effect, id: u64, now: Instant) {
    if was.retries >= 4 then
      id !in e.peer.outbox.pending && MessageFailed(id) in e.events
    else
      && id in e.peer.outbox.pending
      && e.peer.outbox.pending[id] ==
         PendingMessage(was.text, was.retries + 1, now + WAITS[was.retries + 1] * MILLISECOND)
  }

  lemma OneReschedules(p: Peer, id: u64, now: Instant)
    requires id in p.outbox.pending && RetryOne(p, id, now).error.None?
    ensures Rescheduled(p.outbox.pending[id], RetryOne(p, id, now), id, now)
  {
    if p.outbox.pending[id].retries < 4 {
      RepeatShape(p, id, now);
    }
    hide Seal, Encode;
  }

  lemma RescheduledThen(was: PendingMessage, e: Effect, f: Effect, id: u64, now: Instant)
    requires Rescheduled(was, e, id, now) || Rescheduled(was, f, id, now)
    requires Rescheduled(was, f, id, now) || (
               && (id in f.peer.outbox.pending <==> id in e.peer.outbox.pending)
               && (id in e.peer.outbox.pending ==> f.peer.outbox.pending[id] == e.peer.outbox.pending[id]))
    ensures Rescheduled(was, e.Then(f), id, now)
  {
  }

  lemma {:induction false} RetriesReschedule(p: Peer, due: seq<u64>, now: Instant, id: u64)
    requires AllDue(p, due, now) && RetryAll(p, due, now).error.None? && id in due
    ensures Rescheduled(p.outbox.pending[id], RetryAll(p, due, now), id, now)
  {
    hide RetryOne, Rescheduled;
    var front, last := due[..|due| - 1], due[|due| - 1];
    var e := RetryAll(p, front, now);
    AllDueFront(p, due, now);
    RetryAllFrame(p, front, now);
    RetryOneFrame(e.peer, last, now);
    assert due == front + [last];
    if id == last {
      OneReschedules(e.peer, id, now);
    } else {
      RetriesReschedule(p, front, now, id);
    }
    RescheduledThen(p.outbox.pending[id], e, RetryOne(e.peer, last, now), id, now);
  }

  lemma TickReschedules(s: Side, due: seq<u64>, now: Instant, id: u64)
    requires SideInv(s) && s.status == Live && Enumerates(due, DueIds(s.peer, now)) && id in s.peer.outbox.pending
    requires var r := PeerModel.Tick(s.peer, due, now); r.action == Continue && r.effect.error.None?
    ensures
      var was, r := s.peer.outbox.pending[id], PeerModel.Tick(s.peer, due, now);
      if now < was.nextRetry then
        id in r.effect.peer.outbox.pending && r.effect.peer.outbox.pending[id] == was
      else
        Rescheduled(was, r.effect, id, now)
  {
    hide SideInv, PeerModel.Tick, RetryAll, Rescheduled, DueIds, Enumerates;
    ChannelTicks.EnumeratedAreDue(s.peer, due, now);
    var was := s.peer.outbox.pending[id];
    var f := GoesThrough(s.peer, due, now);
    var g := RetryAll(f.peer, due, now);
    RetryAllFrame(f.peer, due, now);
    if now >= was.nextRetry {
      DueIsListed(s.peer, due, now, id);
      StillDue(s.peer, f.peer, due, now);
      RetriesReschedule(f.peer, due, now, id);
      assert f.events + g.events == g.events;
      RescheduledAlike(was, g, f.Then(g), id, now);
    }
  }

  lemma StillDue(p: Peer, q: Peer, due: seq<u64>, now: Instant)
    requires AllDue(p, due, now) && q.outbox == p.outbox
    ensures AllDue(q, due, now)
  {
  }

  /** A tick that goes through ends with the retransmissions; what precedes them raises no
      event and leaves the messages alone. */
  lemma GoesThrough(p: Peer, due: seq<u64>, now: Instant) returns (f: Effect)
    requires var r := PeerModel.Tick(p, due, now); r.action == Continue && r.effect.error.None?
    ensures f.peer.outbox == p.outbox && f.events == []
    ensures RetryAll(f.peer, due, now).error.None?
    ensures PeerModel.Tick(p, due, now).effect == f.Then(RetryAll(f.peer, due, now))
  {
    hide Handshake, SendHeartbeat, RetryAll;
    var q := ConnectionAction(p, now).0;
    var e := Handshake(q, now);
    f := e.Then(SendHeartbeat(e.peer, now));
    ChannelTicks.UpkeepFrame(q, now);
    ChannelTicks.UpkeepFrame(e.peer, now);
  }

  lemma RescheduledAlike(was: PendingMessage, e: Effect, f: Effect, id: u64, now: Instant)
    requires Rescheduled(was, e, id, now) && f.peer == e.peer && f.events == e.events
    ensures Rescheduled(was, f, id, now)
  {
  }

  /** A tick that goes through, for each pending message: before its time it is left alone; in
      its time it is sent again under a sequence not used before and due again 1, 2, 4 and
      4 seconds later, or, after its fifth transmission, given up and reported failed. */
  lemma RetransmissionSchedule(p: Pairing, sys: System, who: Party, due: seq<u64>, now: Instant, id: u64) returns (n: u64)
    requires Reachable(p, sys) && Enabled(sys, Tick(who, due, now)) && id in sys.Get(who).peer.outbox.pending
    requires var r := PeerModel.Tick(sys.Get(who).peer, due, now); r.action == Continue && r.effect.error.None?
    ensures
      var s, t := sys.Get(who), TickAt(sys.Get(who), due, now);
      var was := s.peer.outbox.pending[id];
      if now < was.nextRetry then
        id in t.peer.outbox.pending && t.peer.outbox.pending[id] == was
      else if was.retries == 4 then
        id !in t.peer.outbox.pending && MessageFailed(id) in t.events
      else
        && was.retries < 4 && s.peer.link.transport.Some? && s.peer.sendSequence <= n
        && NextSealed(s.peer.(sendSequence := n), Message(id, was.text)) in t.sent
        && id in t.peer.outbox.pending
        && t.peer.outbox.pending[id] ==
           PendingMessage(was.text, was.retries + 1, now + WAITS[was.retries + 1] * MILLISECOND)
  {
    n := 0;
    hide PairInv, SideInv, Reachable, ChannelPairs.Timely, PeerModel.Tick, Enumerates, DueIds, NextSealed;
    ReachableSides(p, sys, who);
    var s := sys.Get(who);
    var was := s.peer.outbox.pending[id];
    RetriesAreBounded(s, id);
    TickReschedules(s, due, now, id);
    if now >= was.nextRetry && was.retries < 4 {
      DueIsListed(s.peer, due, now, id);
      n := ChannelDelivery.TickTransmits(s, due, now, id);
    }
  }

  lemma DueIsListed(p: Peer, due: seq<u64>, now: Instant, id: u64)
    requires Enumerates(due, DueIds(p, now)) && id in p.outbox.pending && now >= p.outbox.pending[id].nextRetry
    ensures id in due
  {
    assert id in DueIds(p, now);
  }

  lemma RetriesAreBounded(s: Side, id: u64)
    requires SideInv(s) && s.status == Live && id in s.peer.outbox.pending
    ensures s.peer.outbox.pending[id].retries <= 4 && s.peer.link.transport.Some?
  {
    assert PendingEntry(s, id);
  }
}
