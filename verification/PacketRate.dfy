/** The limit on the packets a peer looks at (src/network/client.rs, `allow_packet`), over
    whole runs. */
module PacketRate {
  import opened Prelude
  import opened PeerModel
  import opened Channel
  import opened ChannelClocks
  import ChannelTheorems

  function Counter(p: Peer): (Instant, nat) {
    (p.clocks.rateStarted, p.clocks.packetsThisSecond)
  }

  /** Nothing but packets touches the counter. */
  lemma StepCounts(sys: System, step: Step, who: Party)
    ensures
      var p, q := sys.Get(who).peer, Apply(sys, step).Get(who).peer;
      Counter(q) == if step.Arrive? && step.who == who then Counter(AllowPacket(p, step.now).0) else Counter(p)
  {
    hide Apply, AllowPacket;
    StepClocks(sys, step, who);
  }

  /** How many packets the peer of `who` looks at from the `a`th to before the `b`th step. */
  function Looked(states: seq<System>, steps: seq<Step>, who: Party, a: nat, b: nat): nat
    requires a <= b <= |steps| < |states|
  {
    if a == b then 0
    else Looked(states, steps, who, a, b - 1) + (if Admitted(states[b - 1], steps[b - 1], who) then 1 else 0)
  }

  /** Between two resets of the counter, what was looked at is what it counts. */
  lemma {:induction false} CounterCounts(states: seq<System>, steps: seq<Step>, who: Party, a: nat, b: nat)
    requires IsRun(states, steps) && a <= b <= |steps|
    requires forall k | a <= k <= b :: states[k].Get(who).peer.clocks.rateStarted == states[a].Get(who).peer.clocks.rateStarted
    ensures
      var before, after := states[a].Get(who).peer.clocks, states[b].Get(who).peer.clocks;
      Looked(states, steps, who, a, b) == after.packetsThisSecond - before.packetsThisSecond
  {
    hide Enabled, Apply;
    if a < b {
      CounterCounts(states, steps, who, a, b - 1);
      assert Leads(states, steps, b - 1);
      StepCounts(states[b - 1], steps[b - 1], who);
    }
  }

  lemma {:induction false} CounterIsBounded(p: Pairing, states: seq<System>, steps: seq<Step>, who: Party, i: nat)
    requires IsRunOf(p, states, steps) && i <= |steps|
    ensures states[i].Get(who).peer.clocks.packetsThisSecond <= PACKETS_PER_SECOND
  {
    hide Enabled, Apply;
    if i > 0 {
      CounterIsBounded(p, states, steps, who, i - 1);
      assert Leads(states, steps, i - 1);
      StepCounts(states[i - 1], steps[i - 1], who);
    }
  }

  /** So between two resets at most 100 packets are looked at. */
  lemma AtMost100BetweenResets(p: Pairing, states: seq<System>, steps: seq<Step>, who: Party, a: nat, b: nat)
    requires IsRunOf(p, states, steps) && a <= b <= |steps|
    requires forall k | a <= k <= b :: states[k].Get(who).peer.clocks.rateStarted == states[a].Get(who).peer.clocks.rateStarted
    ensures Looked(states, steps, who, a, b) <= 100
  {
    hide Start, IsRun;
    CounterCounts(states, steps, who, a, b);
    CounterIsBounded(p, states, steps, who, b);
  }

  lemma {:induction false} Looking(p: Pairing, states: seq<System>, steps: seq<Step>, who: Party, a: nat, b: nat)
    requires IsRunOf(p, states, steps) && a < b <= |steps| && steps[b - 1].now < steps[a].now + SECOND
    ensures
      var looked, c := Looked(states, steps, who, a, b), states[b].Get(who).peer.clocks;
      looked <= c.packetsThisSecond || (looked <= PACKETS_PER_SECOND + c.packetsThisSecond && c.rateStarted >= steps[a].now)
    ensures steps[a].now <= steps[b - 1].now
  {
    hide Enabled, Apply, Start;
    var i := b - 1;
    assert Leads(states, steps, i);
    StepTime(states, steps, i);
    StepCounts(states[i], steps[i], who);
    CounterIsBounded(p, states, steps, who, i);
    if a < i {
      StepTime(states, steps, i - 1);
      Looking(p, states, steps, who, a, i);
    }
  }

  /** In any stretch of a run that lasts less than a second, a peer looks at no more than 200
      packets. */
  lemma AtMost200InASecond(p: Pairing, states: seq<System>, steps: seq<Step>, who: Party, a: nat, b: nat)
    requires IsRunOf(p, states, steps) && a < b <= |steps| && steps[b - 1].now < steps[a].now + SECOND
    ensures Looked(states, steps, who, a, b) <= 200
  {
    hide Start, IsRun;
    Looking(p, states, steps, who, a, b);
    CounterIsBounded(p, states, steps, who, b);
  }

  /** A step from which on what was looked at is what the counter shows. */
  lemma {:induction false} LastReset(p: Pairing, states: seq<System>, steps: seq<Step>, who: Party, b: nat) returns (a: nat)
    requires IsRunOf(p, states, steps) && b <= |steps|
    ensures
      var q := states[b].Get(who).peer;
      && a <= b && Looked(states, steps, who, a, b) == q.clocks.packetsThisSecond
      && (a < b ==> steps[a].now >= q.clocks.rateStarted)
      && (q.clocks.rateStarted == q.id.startedAt || q.clocks.rateStarted <= states[b].clock)
  {
    hide Apply, Enabled, IsRun;
    a := 0;
    if b > 0 {
      var i := b - 1;
      a := LastReset(p, states, steps, who, i);
      StepOf(p, states, steps, i);
      StepTime(states, steps, i);
      StepCounts(states[i], steps[i], who);
      ChannelTheorems.RunGrows(p, states, steps, who, i);
      if Admitted(states[i], steps[i], who) && Since(steps[i].now, states[i].Get(who).peer.clocks.rateStarted) >= SECOND {
        a := i;
      } else if a == i && !Admitted(states[i], steps[i], who) {
        a := b;
      }
    }
  }

  lemma StepOf(p: Pairing, states: seq<System>, steps: seq<Step>, i: nat)
    requires IsRunOf(p, states, steps) && i < |steps|
    ensures |states| == |steps| + 1 && states[i + 1] == Apply(states[i], steps[i])
    ensures states[i].Get(steps[i].who).peer.id.startedAt <= steps[i].now
  {
    assert Leads(states, steps, i);
    hide Apply;
  }

  /** A packet goes unlooked at only if, counting back from it, 100 packets were looked at in
      less than a second. */
  lemma UnlookedOnlyWhenFull(p: Pairing, states: seq<System>, steps: seq<Step>, who: Party, b: nat) returns (a: nat)
    requires IsRunOf(p, states, steps) && b < |steps|
    requires steps[b].Arrive? && steps[b].who == who && !Admitted(states[b], steps[b], who)
    ensures a < b && Looked(states, steps, who, a, b) >= 100 && steps[b].now < steps[a].now + SECOND
  {
    hide IsRun, Start;
    a := LastReset(p, states, steps, who, b);
    StepOf(p, states, steps, b);
    StepTime(states, steps, b);
  }
}
