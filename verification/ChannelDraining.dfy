/** What is pending drains: over any stretch of a run without new messages, retransmissions
    are paid for by the attempts that were left. */
module ChannelDraining {
  import opened Prelude
  import opened Plaintext
  import opened PeerModel
  import opened Channel
  import opened ChannelInvariant
  import ChannelSends
  import ChannelTicks
  import opened ChannelTheorems
  import ChannelFrames
  import ChannelPairs
  import Replay

  // --- Arrivals only settle ------------------------------------------------------------

  /** Entries may go but none is new or changed. */
  ghost predicate Shrinks(a: Outbox, b: Outbox) {
    && b.nextMessageId == a.nextMessageId
    && forall id | id in b.pending :: id in a.pending && b.pending[id] == a.pending[id]
  }

  lemma PlainShrinks(p: Peer, plain: Plain)
    ensures Shrinks(p.outbox, HandlePlain(p, plain).peer.outbox)
  {
    match plain
    case Ready(nickname) =>
      ChannelFrames.SealShape(p.(link := p.link.(peerNickname := Some(nickname), readyReceived := true)), Encode(ReadyAck));
      hide Seal, Encode;
    case Message(id, text) =>
      ChannelFrames.SealShape(p, Encode(MessageAck(id)));
      hide Seal, Encode;
    case _ =>
  }

  lemma ReadyKeepsOutbox(p: Peer, now: Instant)
    ensures SendReady(p, now).peer.outbox == p.outbox
  {
    ChannelFrames.SealShape(p, Encode(Ready(p.id.localNickname)));
    hide Seal, Encode;
  }

  lemma PacketShrinks(p: Peer, packet: Packet, now: Instant)
    ensures Shrinks(p.outbox, HandlePacket(p, packet, now).peer.outbox)
  {
    hide SendReady, HandlePlain, Open, ReadHello, ReadReply, Parse;
    var q := p.(clocks := p.clocks.(lastReceived := now));
    match packet
    case Init(hello) =>
      if ReadHello(q.id.context, hello).Some? {
        var session := Session(q.id.context, ReadHello(q.id.context, hello).value, q.id.key);
        ReadyKeepsOutbox(Adopted(q, session, Some(Response(Reply(session)))), now);
      }
    case Response(reply) =>
      if ReadReply(q.id.context, q.id.key, reply).Some? {
        ReadyKeepsOutbox(Adopted(q, ReadReply(q.id.context, q.id.key, reply).value, q.link.responsePacket), now);
      }
    case Transport(sequence, body) =>
      if q.link.transport.Some? && Opened(q, sequence, body).Some? {
        var plaintext := Opened(q, sequence, body).value;
        if Parse(plaintext).Some? {
          PlainShrinks(q.(replay := Replay.Record(q.replay, sequence)), Parse(plaintext).value);
        }
      }
    case _ =>
  }

  lemma ArrivalShrinks(p: Peer, packet: Packet, now: Instant)
    ensures Shrinks(p.outbox, Receive(p, packet, now).peer.outbox)
  {
    var (q, allowed) := AllowPacket(p, now);
    assert q.outbox == p.outbox;
    hide HandlePacket, AllowPacket;
    PacketShrinks(q, packet, now);
  }

  lemma {:induction false} SettlingFreesAttempts(a: Outbox, b: Outbox, n: nat)
    requires Shrinks(a, b)
    ensures AttemptsLeft(b.pending, n) <= AttemptsLeft(a.pending, n)
  {
    if n > 0 {
      SettlingFreesAttempts(a, b, n - 1);
    }
  }

  /** Five for each pending message at the most. */
  lemma {:induction false} AttemptsAreBounded(pending: map<u64, PendingMessage>, n: nat, ids: set<u64>)
    requires forall id | id in pending && id <= n :: id in ids
    ensures AttemptsLeft(pending, n) <= 5 * |ids|
  {
    if n > 0 {
      if n <= MAX_U64 && n in pending {
        AttemptsAreBounded(pending, n - 1, ids - {n});
      } else {
        AttemptsAreBounded(pending, n - 1, ids);
      }
    }
  }

  // --- One step ------------------------------------------------------------------------

  /** A tick that goes past the connection checks and so looks at the due messages. */
  predicate Retries(sys: System, step: Step, who: Party) {
    step.Tick? && step.who == who && PeerModel.Tick(sys.Get(who).peer, step.due, step.now).action == Continue
  }

  /** How many messages the step retransmits or gives up at `who`. */
  function Spent(sys: System, step: Step, who: Party): nat {
    if Retries(sys, step, who) then |step.due| else 0
  }

  function Left(sys: System, who: Party, n: nat): nat {
    AttemptsLeft(sys.Get(who).peer.outbox.pending, n)
  }

  lemma SkippedTick(p: Peer, due: seq<u64>, now: Instant)
    requires PeerModel.Tick(p, due, now).action != Continue
    ensures PeerModel.Tick(p, due, now).effect.peer.outbox == p.outbox
  {
    hide SendHeartbeat, RetryAll, Handshake;
    ChannelTicks.UpkeepFrame(ConnectionAction(p, now).0, now);
  }

  lemma {:induction false} RetriesKeepCounter(p: Peer, due: seq<u64>, now: Instant)
    ensures PeerModel.Tick(p, due, now).effect.peer.outbox.nextMessageId == p.outbox.nextMessageId
  {
    hide Handshake, SendHeartbeat, RetryAll;
    var q := ConnectionAction(p, now).0;
    var e := Handshake(q, now);
    var f := e.Then(SendHeartbeat(e.peer, now));
    ChannelTicks.UpkeepFrame(q, now);
    ChannelTicks.UpkeepFrame(e.peer, now);
    ChannelSends.RetryAllFrame(f.peer, due, now);
  }

  /** The step keeps what is left, less what it spends. */
  lemma StepSpends(sys: System, step: Step, who: Party)
    requires ChannelPairs.SystemInv(sys) && Enabled(sys, step)
    requires step.who == who ==> !step.Say?
    requires Apply(sys, step).Get(who).status == Live
    ensures
      var n, v := sys.Get(who).peer.outbox.nextMessageId, Apply(sys, step);
      && sys.Get(who).status == Live
      && v.Get(who).peer.outbox.nextMessageId == n
      && Left(v, who, n) + Spent(sys, step, who) <= Left(sys, who, n)
  {
    hide ChannelPairs.SystemInv, SideInv, Receive, PeerModel.Tick, AttemptsLeft, Enumerates, DueIds;
    var s := sys.Get(who);
    var n := s.peer.outbox.nextMessageId;
    if step.who == who {
      match step
      case Arrive(_, packet, now) =>
        ArrivalShrinks(s.peer, packet, now);
        SettlingFreesAttempts(s.peer.outbox, Receive(s.peer, packet, now).peer.outbox, n);
      case Tick(_, due, now) =>
        RetriesKeepCounter(s.peer, due, now);
        if Retries(sys, step, who) {
          SideOf(sys, who);
          DrainingTick(s, due, now);
        } else {
          SkippedTick(s.peer, due, now);
        }
      case Close(_, _, _) =>
    }
  }

  lemma SideOf(sys: System, who: Party)
    requires ChannelPairs.SystemInv(sys)
    ensures SideInv(sys.Get(who))
  {
    hide SideInv;
  }

  // --- Runs ----------------------------------------------------------------------------

  /** `who` sends no new message from the `a`th to before the `b`th step, and is live after. */
  ghost predicate NothingNew(states: seq<System>, steps: seq<Step>, who: Party, a: nat, b: nat)
    requires b <= |steps| < |states|
  {
    && (forall i | a <= i < b && steps[i].who == who :: !steps[i].Say?)
    && states[b].Get(who).status == Live
  }

  function TotalSpent(states: seq<System>, steps: seq<Step>, who: Party, a: nat, b: nat): nat
    requires a <= b <= |steps| < |states|
  {
    if a == b then 0 else TotalSpent(states, steps, who, a, b - 1) + Spent(states[b - 1], steps[b - 1], who)
  }

  /** Over any stretch of any run in which no new message is sent, what is left at the end and
      what was retransmitted or given up on the way came from what was left at the start. */
  lemma {:induction false} AttemptsAreSpent(p: Pairing, states: seq<System>, steps: seq<Step>, who: Party, a: nat, b: nat)
    requires IsRunOf(p, states, steps) && a <= b <= |steps| && NothingNew(states, steps, who, a, b)
    ensures
      var n := states[a].Get(who).peer.outbox.nextMessageId;
      && states[b].Get(who).peer.outbox.nextMessageId == n
      && Left(states[b], who, n) + TotalSpent(states, steps, who, a, b) <= Left(states[a], who, n)
  {
    hide ChannelPairs.SystemInv, Enabled, Apply, Start, Left, Spent;
    if a < b {
      var i := b - 1;
      assert Leads(states, steps, i);
      RunOfKeepsInv(p, states, steps, i);
      StepSpends(states[i], steps[i], who);
      AttemptsAreSpent(p, states, steps, who, a, i);
    }
  }

  /** So at most 320 retransmissions and failures follow the last new message. */
  lemma AtMost320(p: Pairing, states: seq<System>, steps: seq<Step>, who: Party, a: nat, b: nat)
    requires IsRunOf(p, states, steps) && a <= b <= |steps| && NothingNew(states, steps, who, a, b)
    ensures TotalSpent(states, steps, who, a, b) <= 5 * |states[a].Get(who).peer.outbox.pending| <= 320
  {
    hide ChannelPairs.SystemInv, Start, Leads;
    AttemptsAreSpent(p, states, steps, who, a, b);
    StaysLive(p, states, steps, who, a, b);
    RunOfKeepsInv(p, states, steps, a);
    SideOf(states[a], who);
    assert Accounts(states[a].Get(who));
    hide SideInv;
    var outbox := states[a].Get(who).peer.outbox;
    AttemptsAreBounded(outbox.pending, outbox.nextMessageId, outbox.pending.Keys);
  }

  lemma {:induction false} StaysLive(p: Pairing, states: seq<System>, steps: seq<Step>, who: Party, a: nat, b: nat)
    requires IsRunOf(p, states, steps) && a <= b <= |steps| && NothingNew(states, steps, who, a, b)
    ensures states[a].Get(who).status == Live
  {
    hide ChannelPairs.SystemInv, Enabled, Apply, Start, Left, Spent;
    if a < b {
      var i := b - 1;
      assert Leads(states, steps, i);
      RunOfKeepsInv(p, states, steps, i);
      StepSpends(states[i], steps[i], who);
      StaysLive(p, states, steps, who, a, i);
    }
  }

  // --- Five rounds ---------------------------------------------------------------------

  /** Every pending message has been retransmitted at least so often. */
  ghost predicate AtLeast(p: Peer, rounds: nat) {
    forall id | id in p.outbox.pending :: p.outbox.pending[id].retries >= rounds
  }

  /** A tick that goes through when every pending message is due. */
  ghost predicate FullRound(sys: System, step: Step, who: Party) {
    && Retries(sys, step, who)
    && forall id | id in sys.Get(who).peer.outbox.pending :: step.now >= sys.Get(who).peer.outbox.pending[id].nextRetry
  }

  ghost function FullRounds(states: seq<System>, steps: seq<Step>, who: Party, a: nat, b: nat): nat
    requires a <= b <= |steps| < |states|
  {
    if a == b then 0
    else FullRounds(states, steps, who, a, b - 1) + (if FullRound(states[b - 1], steps[b - 1], who) then 1 else 0)
  }

  lemma {:induction false} RetriesRaise(p: Peer, due: seq<u64>, now: Instant, id: u64)
    requires ChannelSends.AllDue(p, due, now) && RetryAll(p, due, now).error.None?
    requires id in RetryAll(p, due, now).peer.outbox.pending
    ensures id in p.outbox.pending
    ensures
      RetryAll(p, due, now).peer.outbox.pending[id].retries ==
      p.outbox.pending[id].retries + (if id in due then 1 else 0)
  {
    if due != [] {
      var front, last := due[..|due| - 1], due[|due| - 1];
      var e := RetryAll(p, front, now);
      ChannelSends.AllDueFront(p, due, now);
      ChannelSends.RetryAllFrame(p, front, now);
      ChannelSends.RetryOneFrame(e.peer, last, now);
      assert id in due <==> id in front || id == last;
      if id == last {
        RaiseOne(e.peer, id, now);
      } else {
        RetriesRaise(p, front, now, id);
      }
    }
  }

  lemma RaiseOne(p: Peer, id: u64, now: Instant)
    requires id in p.outbox.pending && RetryOne(p, id, now).error.None? && id in RetryOne(p, id, now).peer.outbox.pending
    ensures RetryOne(p, id, now).peer.outbox.pending[id].retries == p.outbox.pending[id].retries + 1
  {
    if p.outbox.pending[id].retries < 4 {
      ChannelSends.RepeatShape(p, id, now);
    }
  }

  lemma TickRaises(p: Peer, due: seq<u64>, now: Instant, rounds: nat)
    requires Enumerates(due, DueIds(p, now)) && AtLeast(p, rounds)
    requires var r := PeerModel.Tick(p, due, now); r.effect.error.None?
    ensures
      var r := PeerModel.Tick(p, due, now);
      && AtLeast(r.effect.peer, rounds)
      && (r.action == Continue && (forall id | id in p.outbox.pending :: now >= p.outbox.pending[id].nextRetry) ==>
            AtLeast(r.effect.peer, rounds + 1))
  {
    hide Handshake, SendHeartbeat, RetryAll;
    var (q, action) := ConnectionAction(p, now);
    var e := Handshake(q, now);
    var f := e.Then(SendHeartbeat(e.peer, now));
    ChannelTicks.UpkeepFrame(q, now);
    ChannelTicks.UpkeepFrame(e.peer, now);
    assert f.peer.outbox == p.outbox;
    var r := PeerModel.Tick(p, due, now);
    if r.action == Continue {
      ChannelTicks.EnumeratedAreDue(p, due, now);
      assert r.effect.peer == RetryAll(f.peer, due, now).peer;
      forall id | id in r.effect.peer.outbox.pending
        ensures id in p.outbox.pending
        ensures r.effect.peer.outbox.pending[id].retries == p.outbox.pending[id].retries + (if id in due then 1 else 0)
      {
        RetriesRaise(f.peer, due, now, id);
      }
    } else {
      SkippedTick(p, due, now);
    }
  }

  lemma StepRaises(sys: System, step: Step, who: Party, rounds: nat)
    requires ChannelPairs.SystemInv(sys) && Enabled(sys, step)
    requires step.who == who ==> !step.Say?
    requires Apply(sys, step).Get(who).status == Live
    requires AtLeast(sys.Get(who).peer, rounds)
    ensures AtLeast(Apply(sys, step).Get(who).peer, rounds + (if FullRound(sys, step, who) then 1 else 0))
  {
    hide ChannelPairs.SystemInv, Receive, PeerModel.Tick, Enumerates, DueIds;
    var s := sys.Get(who);
    if step.who == who {
      match step
      case Arrive(_, packet, now) => ArrivalShrinks(s.peer, packet, now);
      case Tick(_, due, now) => TickRaises(s.peer, due, now, rounds);
      case Close(_, _, _) =>
    }
  }

  lemma {:induction false} RoundsRaise(p: Pairing, states: seq<System>, steps: seq<Step>, who: Party, a: nat, b: nat)
    requires IsRunOf(p, states, steps) && a <= b <= |steps| && NothingNew(states, steps, who, a, b)
    ensures AtLeast(states[b].Get(who).peer, FullRounds(states, steps, who, a, b))
  {
    hide ChannelPairs.SystemInv, Enabled, Apply, Start, FullRound;
    if a < b {
      var i := b - 1;
      assert Leads(states, steps, i);
      RunOfKeepsInv(p, states, steps, i);
      StepSpends(states[i], steps[i], who);
      RoundsRaise(p, states, steps, who, a, i);
      StepRaises(states[i], steps[i], who, FullRounds(states, steps, who, a, i));
    }
  }

  /** After five ticks that go through, each past every time a message is due, nothing is
      pending unless a new message was sent in between. */
  lemma FiveRoundsDrain(p: Pairing, states: seq<System>, steps: seq<Step>, who: Party, a: nat, b: nat)
    requires IsRunOf(p, states, steps) && a <= b <= |steps| && NothingNew(states, steps, who, a, b)
    requires FullRounds(states, steps, who, a, b) >= 5
    ensures states[b].Get(who).peer.outbox.pending == map[]
  {
    hide ChannelPairs.SystemInv, Start, Leads, FullRounds;
    var s := states[b].Get(who);
    RoundsRaise(p, states, steps, who, a, b);
    RunOfKeepsInv(p, states, steps, b);
    SideOf(states[b], who);
    assert Accounts(s);
    hide SideInv;
    forall id: u64 ensures id !in s.peer.outbox.pending {
      assert id in s.peer.outbox.pending ==> PendingEntry(s, id);
    }
  }

  /** As soon as no attempts are left, nothing is pending. */
  lemma SpentMeansDrained(p: Pairing, sys: System, who: Party)
    requires Reachable(p, sys) && sys.Get(who).status == Live
    requires Left(sys, who, sys.Get(who).peer.outbox.nextMessageId) == 0
    ensures sys.Get(who).peer.outbox.pending == map[]
  {
    hide ChannelPairs.SystemInv, Reachable, AttemptsLeft;
    var s := sys.Get(who);
    ReachableInv(p, sys);
    SideOf(sys, who);
    assert Accounts(s);
    hide SideInv;
    forall id: u64 ensures id !in s.peer.outbox.pending {
      assert id in s.peer.outbox.pending ==> PendingEntry(s, id);
      if 1 <= id <= s.peer.outbox.nextMessageId {
        NoAttemptsNothingPending(s.peer.outbox.pending, s.peer.outbox.nextMessageId, id);
      }
    }
  }
}
