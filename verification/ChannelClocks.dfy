/** Which steps move which clocks of a peer. */
module ChannelClocks {
  import opened Prelude
  import opened Plaintext
  import opened PeerModel
  import opened Channel
  import ChannelFrames
  import ChannelSends
  import Replay

  lemma PlainKeepsClocks(p: Peer, plain: Plain)
    ensures HandlePlain(p, plain).peer.clocks == p.clocks
  {
    match plain
    case Ready(nickname) =>
      ChannelFrames.SealShape(p.(link := p.link.(peerNickname := Some(nickname), readyReceived := true)), Encode(ReadyAck));
      hide Seal, Encode;
    case Message(id, text) =>
      ChannelFrames.SealShape(p, Encode(MessageAck(id)));
      hide Seal, Encode;
    case _ =>
  }

  lemma ReadyClock(p: Peer, now: Instant)
    ensures
      var q := SendReady(p, now).peer;
      q.clocks == p.clocks.(lastReadySend := q.clocks.lastReadySend)
  {
    ChannelFrames.SealShape(p, Encode(Ready(p.id.localNickname)));
    hide Seal, Encode;
  }

  lemma PacketClocks(p: Peer, packet: Packet, now: Instant)
    ensures
      var q := HandlePacket(p, packet, now).peer;
      && q.clocks == p.clocks.(lastReceived := q.clocks.lastReceived, lastReadySend := q.clocks.lastReadySend)
      && q.clocks.lastReceived == if packet.Foreign? then p.clocks.lastReceived else now
  {
    hide SendReady, HandlePlain, Open, ReadHello, ReadReply, Parse;
    var q := p.(clocks := p.clocks.(lastReceived := now));
    match packet
    case Init(hello) =>
      if ReadHello(q.id.context, hello).Some? {
        var session := Session(q.id.context, ReadHello(q.id.context, hello).value, q.id.key);
        ReadyClock(Adopted(q, session, Some(Response(Reply(session)))), now);
      }
    case Response(reply) =>
      if ReadReply(q.id.context, q.id.key, reply).Some? {
        ReadyClock(Adopted(q, ReadReply(q.id.context, q.id.key, reply).value, q.link.responsePacket), now);
      }
    case Transport(sequence, body) =>
      if q.link.transport.Some? && Opened(q, sequence, body).Some? {
        var plaintext := Opened(q, sequence, body).value;
        if Parse(plaintext).Some? {
          PlainKeepsClocks(q.(replay := Replay.Record(q.replay, sequence)), Parse(plaintext).value);
        }
      }
    case _ =>
  }

  lemma ArrivalClocks(p: Peer, packet: Packet, now: Instant)
    ensures
      var (r, allowed) := AllowPacket(p, now);
      var q := Receive(p, packet, now).peer;
      && q.clocks == r.clocks.(lastReceived := q.clocks.lastReceived, lastReadySend := q.clocks.lastReadySend)
      && q.clocks.lastReceived == if packet.Foreign? || !allowed then r.clocks.lastReceived else now
  {
    PacketClocks(AllowPacket(p, now).0, packet, now);
    hide HandlePacket, AllowPacket;
  }

  lemma UpkeepClocks(p: Peer, now: Instant)
    ensures
      var q := Handshake(p, now).peer;
      q.clocks == p.clocks.(lastHandshakeSend := q.clocks.lastHandshakeSend, lastReadySend := q.clocks.lastReadySend)
    ensures
      var q := SendHeartbeat(p, now).peer;
      && q.clocks == p.clocks.(lastHeartbeatSend := q.clocks.lastHeartbeatSend)
      && (q.clocks.lastHeartbeatSend == p.clocks.lastHeartbeatSend || q.clocks.lastHeartbeatSend == now)
  {
    ReadyClock(p, now);
    ChannelFrames.SealShape(p, Encode(Heartbeat));
    hide Seal, Encode, SendReady;
  }

  lemma TickClocks(p: Peer, due: seq<u64>, now: Instant)
    ensures
      var q := PeerModel.Tick(p, due, now).effect.peer;
      && q.clocks == p.clocks.(
           lastHandshakeSend := q.clocks.lastHandshakeSend, lastReadySend := q.clocks.lastReadySend,
           lastHeartbeatSend := q.clocks.lastHeartbeatSend)
      && (q.clocks.lastHeartbeatSend == p.clocks.lastHeartbeatSend || q.clocks.lastHeartbeatSend == now)
  {
    hide Handshake, SendHeartbeat, RetryAll;
    var q := ConnectionAction(p, now).0;
    var e := Handshake(q, now);
    var f := e.Then(SendHeartbeat(e.peer, now));
    UpkeepClocks(q, now);
    UpkeepClocks(e.peer, now);
    ChannelSends.RetryAllFrame(f.peer, due, now);
  }

  lemma SayKeepsClocks(p: Peer, text: string, now: Instant)
    ensures SendMessage(p, text, now).peer.clocks == p.clocks
  {
    var id := p.outbox.nextMessageId;
    ChannelFrames.SealShape(p.(outbox := p.outbox.(nextMessageId := NextId(id))), Encode(Message(id, text)));
    hide Seal, Encode;
  }

  /** The step is a packet that the peer of `who` looks at. */
  predicate Admitted(sys: System, step: Step, who: Party) {
    step.Arrive? && step.who == who && AllowPacket(sys.Get(who).peer, step.now).1
  }

  /** Packets move the receiving clock and the allowance, ticks the sending clocks. */
  lemma StepClocks(sys: System, step: Step, who: Party)
    ensures
      var p := sys.Get(who).peer;
      var c, d := p.clocks, Apply(sys, step).Get(who).peer.clocks;
      if step.who == who && step.Arrive? then
        && d == AllowPacket(p, step.now).0.clocks.(lastReceived := d.lastReceived, lastReadySend := d.lastReadySend)
        && d.lastReceived == (if Admitted(sys, step, who) && !step.packet.Foreign? then step.now else c.lastReceived)
      else if step.who == who && step.Tick? then
        && d == c.(lastHandshakeSend := d.lastHandshakeSend, lastReadySend := d.lastReadySend, lastHeartbeatSend := d.lastHeartbeatSend)
        && (d.lastHeartbeatSend == c.lastHeartbeatSend || d.lastHeartbeatSend == step.now)
      else
        d == c
  {
    hide Receive, PeerModel.Tick, SendMessage, AllowPacket;
    if step.who == who {
      var p := sys.Get(who).peer;
      match step
      case Arrive(_, packet, now) =>
        ArrivalClocks(p, packet, now);
        AllowanceAlone(p, now);
      case Tick(_, due, now) => TickClocks(p, due, now);
      case Say(_, text, now) => SayKeepsClocks(p, text, now);
      case Close(_, _, _) =>
    }
  }

  lemma AllowanceAlone(p: Peer, now: Instant)
    ensures
      var c := AllowPacket(p, now).0.clocks;
      c == p.clocks.(rateStarted := c.rateStarted, packetsThisSecond := c.packetsThisSecond)
  {
  }

  /** The time of a step, which is the clock of the state it leads to. */
  lemma StepTime(states: seq<System>, steps: seq<Step>, i: nat)
    requires IsRun(states, steps) && i < |steps|
    ensures states[i].clock <= steps[i].now == states[i + 1].clock
  {
    assert Leads(states, steps, i);
    hide ArriveAt, TickAt, SayAt, CloseAt, Enumerates, DueIds;
  }
}
