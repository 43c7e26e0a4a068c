/** Heartbeats over whole runs: while both ends tick and their heartbeats get through in time,
    neither is ended for silence. */
module ChannelSilence {
  import opened Prelude
  import opened PeerModel
  import opened Channel
  import opened ChannelInvariant
  import opened ChannelClocks
  import ChannelPairs
  import ChannelTheorems
  import ChannelTicks
  import opened ChannelUpkeep

  /** The steps of a run from the `a`th to before the `b`th. */
  datatype Stretch = Stretch(states: seq<System>, steps: seq<Step>, a: nat, b: nat) {
    ghost predicate Of(p: Pairing) {
      IsRunOf(p, states, steps) && a <= b <= |steps|
    }

    predicate Ticks(who: Party, i: nat)
      requires i < |steps|
    {
      steps[i].Tick? && steps[i].who == who
    }

    /** What a tick does to its peer. */
    function Result(i: nat): TickResult
      requires i < |steps| && i < |states| && steps[i].Tick?
    {
      PeerModel.Tick(states[i].Get(steps[i].who).peer, steps[i].due, steps[i].now)
    }

    /** The `i`th step is a tick of `who` that puts this heartbeat on the wire. */
    predicate Beats(who: Party, i: nat, packet: Packet)
      requires i < |steps| && i < |states|
    {
      Ticks(who, i) && packet in Result(i).effect.sent && IsHeartbeat(packet)
    }

    ghost predicate TickedLately(who: Party, m: nat, gap: int)
      requires m < |steps|
    {
      exists i | a <= i < m :: Ticks(who, i) && steps[m].now <= steps[i].now + gap
    }

    /** `who` ticks at least every `gap`. */
    ghost predicate TicksEvery(who: Party, gap: int)
      requires a <= b <= |steps| < |states|
    {
      forall m | a <= m < b && steps[m].now > states[a].clock + gap :: TickedLately(who, m, gap)
    }

    ghost predicate Heard(who: Party, packet: Packet, i: nat, m: nat, delay: int)
      requires i < m < |steps| < |states|
    {
      exists j | i < j < m ::
        && steps[j] == Arrive(who, packet, steps[j].now)
        && Admitted(states[j], steps[j], who)
        && steps[j].now <= steps[i].now + delay
    }

    /** Each heartbeat of `who` arrives at the other side, and is looked at, within `delay`. */
    ghost predicate BeatsArrive(who: Party, delay: int)
      requires a <= b <= |steps| < |states|
    {
      forall i, packet, m | a <= i < m < b && Beats(who, i, packet) && steps[m].now > steps[i].now + delay ::
        Heard(who.Other(), packet, i, m, delay)
    }

    function Clocks(who: Party, i: nat): Clocks
      requires i < |states|
    {
      states[i].Get(who).peer.clocks
    }

    predicate Connected(who: Party, i: nat)
      requires i < |states|
    {
      states[i].Get(who).peer.link.connected
    }
  }

  lemma LongEnough(p: Pairing, st: Stretch)
    requires st.Of(p)
    ensures |st.states| == |st.steps| + 1
  {
  }

  // --- Clocks over a stretch -----------------------------------------------------------

  /** The recorded times are past, unless `who` has not moved yet. */
  ghost predicate Past(sys: System, who: Party) {
    var p := sys.Get(who).peer;
    || (p.clocks.lastReceived <= sys.clock && p.clocks.lastHeartbeatSend <= sys.clock)
    || (!p.link.connected && p.clocks.lastReceived == p.clocks.lastHeartbeatSend == p.id.startedAt)
  }

  lemma StepIsPast(sys: System, step: Step, who: Party)
    requires Enabled(sys, step) && Past(sys, who) && Grows(sys.Get(who), Apply(sys, step).Get(who))
    ensures Past(Apply(sys, step), who) && Apply(sys, step).clock == step.now
  {
    StepClocks(sys, step, who);
    hide Admitted, ArriveAt, TickAt, SayAt, CloseAt, AllowPacket, Enumerates, DueIds, InFlight, Injectable;
    AllowanceAlone(sys.Get(who).peer, step.now);
  }

  lemma {:induction false} RunIsPast(p: Pairing, states: seq<System>, steps: seq<Step>, who: Party, i: nat)
    requires IsRunOf(p, states, steps) && i <= |steps|
    ensures Past(states[i], who)
  {
    hide Enabled, Apply, ChannelPairs.SystemInv, Grows;
    if i > 0 {
      hide Past;
      RunIsPast(p, states, steps, who, i - 1);
      ChannelTheorems.RunGrows(p, states, steps, who, i - 1);
      assert Leads(states, steps, i - 1);
      StepIsPast(states[i - 1], steps[i - 1], who);
    }
  }

  /** Once connected, a side stays so and its receiving clock only moves on. */
  lemma {:induction false} Onwards(p: Pairing, st: Stretch, who: Party, i: nat, j: nat)
    requires st.Of(p) && i <= j <= |st.steps| && st.Connected(who, i)
    ensures st.Connected(who, j) && st.Clocks(who, i).lastReceived <= st.Clocks(who, j).lastReceived
    ensures st.states[i].clock <= st.states[j].clock
  {
    hide Enabled, Apply, Start, Admitted, AllowPacket;
    if i < j {
      Onwards(p, st, who, i, j - 1);
      ChannelTheorems.RunGrows(p, st.states, st.steps, who, j - 1);
      RunIsPast(p, st.states, st.steps, who, j - 1);
      StepTime(st.states, st.steps, j - 1);
      assert Leads(st.states, st.steps, j - 1);
      StepClocks(st.states[j - 1], st.steps[j - 1], who);
    }
  }

  lemma StepNotBroken(sys: System, step: Step, who: Party)
    requires Enabled(sys, step) && Apply(sys, step).Get(who).status != Broken
    ensures sys.Get(who).status != Broken
    ensures step.Tick? && step.who == who ==>
              var r := PeerModel.Tick(sys.Get(who).peer, step.due, step.now);
              r.action == Continue ==> r.effect.error.None?
  {
    hide Receive, PeerModel.Tick, SendMessage, Enumerates, DueIds;
  }

  lemma {:induction false} NotBrokenBefore(p: Pairing, st: Stretch, who: Party, i: nat, j: nat)
    requires st.Of(p) && i <= j <= |st.steps| && st.states[j].Get(who).status != Broken
    ensures st.states[i].Get(who).status != Broken
  {
    hide Enabled, Apply, Start;
    if i < j {
      assert Leads(st.states, st.steps, j - 1);
      StepNotBroken(st.states[j - 1], st.steps[j - 1], who);
      NotBrokenBefore(p, st, who, i, j - 1);
    }
  }

  // --- Heartbeats over a stretch -------------------------------------------------------

  /** `who` is connected from the start of the stretch and fails nowhere before its `k`th step. */
  ghost predicate Steady(p: Pairing, st: Stretch, who: Party, k: nat) {
    && st.Of(p) && st.a <= k <= st.b
    && st.Connected(who, st.a)
    && st.states[st.b].Get(who).status != Broken
    && forall i | st.a <= i < k && st.Ticks(who, i) :: st.Result(i).action == Continue
  }

  /** A tick of a steady side does what `Beaten` says. */
  lemma SteadyTick(p: Pairing, st: Stretch, who: Party, k: nat, i: nat)
    requires Steady(p, st, who, k) && st.a <= i < k && st.Ticks(who, i)
    ensures Beaten(st.states[i].Get(who), st.states[i + 1].Get(who), st.steps[i].now)
    ensures st.states[i + 1].Get(who).sent == st.states[i].Get(who).sent + st.Result(i).effect.sent
  {
    hide SideInv, PairInv, Start, PeerModel.Tick, Beaten, IsRun, ChannelPairs.SystemInv;
    assert |st.steps| < |st.states| by { LongEnough(p, st); }
    var sys := st.states[i];
    var step := st.steps[i];
    Onwards(p, st, who, st.a, i);
    NotBrokenBefore(p, st, who, i + 1, st.b);
    ChannelTheorems.RunOfKeepsInv(p, st.states, st.steps, i);
    StepOf(p, st, i);
    StepNotBroken(sys, step, who);
    InvOf(sys, who);
    hide Enumerates, DueIds;
    BeatsOnTick(sys.Get(who), step.due, step.now);
  }

  lemma StepOf(p: Pairing, st: Stretch, i: nat)
    requires st.Of(p) && i < |st.steps|
    ensures Enabled(st.states[i], st.steps[i]) && st.states[i + 1] == Apply(st.states[i], st.steps[i])
  {
    hide Enabled, Apply, Start;
    assert Leads(st.states, st.steps, i);
  }

  lemma InvOf(sys: System, who: Party)
    requires ChannelPairs.SystemInv(sys)
    ensures SideInv(sys.Get(who))
  {
    hide SideInv, PairInv, ChannelPairs.Timely;
  }

  lemma SteadyIs(p: Pairing, st: Stretch, who: Party, k: nat)
    requires Steady(p, st, who, k)
    ensures st.Of(p) && st.a <= k <= st.b <= |st.steps| < |st.states| && st.Connected(who, st.a)
  {
  }

  lemma SteadyUpTo(p: Pairing, st: Stretch, who: Party, k: nat, m: nat)
    requires Steady(p, st, who, m) && st.a <= k <= m
    ensures Steady(p, st, who, k)
  {
    hide IsRunOf, PeerModel.Tick;
  }

  /** A tick that moves the clock for heartbeats sends one. */
  lemma BeatOfTick(p: Pairing, st: Stretch, who: Party, k: nat, i: nat) returns (packet: Packet)
    requires Steady(p, st, who, k) && st.a <= i < k && st.Ticks(who, i)
    ensures
      || st.Clocks(who, i + 1).lastHeartbeatSend == st.Clocks(who, i).lastHeartbeatSend
      || (st.Beats(who, i, packet) && st.steps[i].now == st.Clocks(who, i + 1).lastHeartbeatSend)
  {
    packet := Foreign;
    SteadyTick(p, st, who, k, i);
    SteadyIs(p, st, who, k);
    hide IsRunOf, Steady, PeerModel.Tick, IsHeartbeat;
    var s, t := st.states[i].Get(who), st.states[i + 1].Get(who);
    if Since(st.steps[i].now, s.peer.clocks.lastHeartbeatSend) >= 30 * SECOND {
      packet :| packet in t.sent[|s.sent|..] && IsHeartbeat(packet) && packet.sequence >= s.peer.sendSequence;
      assert t.sent[|s.sent|..] == st.Result(i).effect.sent;
    }
  }

  lemma OnlyTicksBeat(p: Pairing, st: Stretch, who: Party, i: nat)
    requires st.Of(p) && i < |st.steps| && !st.Ticks(who, i)
    ensures st.Clocks(who, i + 1).lastHeartbeatSend == st.Clocks(who, i).lastHeartbeatSend
  {
    StepOf(p, st, i);
    hide Apply, Enabled, AllowPacket, Admitted, IsRunOf;
    StepClocks(st.states[i], st.steps[i], who);
    AllowanceAlone(st.states[i].Get(who).peer, st.steps[i].now);
  }

  /** When the clock for heartbeats has moved, a heartbeat was sent at the time it shows. */
  lemma {:induction false} BeatBehind(p: Pairing, st: Stretch, who: Party, k: nat) returns (i: nat, packet: Packet)
    requires Steady(p, st, who, k)
    ensures
      || st.Clocks(who, k).lastHeartbeatSend == st.Clocks(who, st.a).lastHeartbeatSend
      || (st.a <= i < k && st.Beats(who, i, packet) && st.steps[i].now == st.Clocks(who, k).lastHeartbeatSend)
  {
    i, packet := 0, Foreign;
    SteadyIs(p, st, who, k);
    if st.a < k {
      SteadyUpTo(p, st, who, k - 1, k);
      hide IsRunOf, Steady, PeerModel.Tick, IsHeartbeat;
      if st.Ticks(who, k - 1) {
        i := k - 1;
        packet := BeatOfTick(p, st, who, k, i);
        if !(st.Beats(who, i, packet) && st.steps[i].now == st.Clocks(who, k).lastHeartbeatSend) {
          i, packet := BeatBehind(p, st, who, k - 1);
        }
      } else {
        OnlyTicksBeat(p, st, who, k - 1);
        i, packet := BeatBehind(p, st, who, k - 1);
      }
    }
  }

  /** After a tick of a steady side its last heartbeat is less than 30 seconds old. */
  lemma RecentBeat(p: Pairing, st: Stretch, who: Party, k: nat, i: nat)
    requires Steady(p, st, who, k) && st.a <= i < k && st.Ticks(who, i)
    ensures st.Clocks(who, i + 1).lastHeartbeatSend > st.steps[i].now - 30 * SECOND
  {
    SteadyTick(p, st, who, k, i);
  }

  /** The first step from the `a`th on that is not before `time`. */
  lemma {:induction false} FirstNotBefore(steps: seq<Step>, a: nat, m: nat, time: Instant) returns (k: nat)
    requires a <= m < |steps| && steps[m].now >= time
    ensures a <= k <= m && steps[k].now >= time
    ensures forall i | a <= i < k :: steps[i].now < time
    decreases m - a
  {
    if steps[a].now >= time {
      k := a;
    } else {
      k := FirstNotBefore(steps, a + 1, m, time);
    }
  }

  /** A side that ticks at least every `gap` ticked within `gap` before any later time. */
  lemma TickBefore(st: Stretch, who: Party, m: nat, gap: int, time: Instant) returns (tick: nat)
    requires st.a <= m < st.b <= |st.steps| < |st.states| && st.TicksEvery(who, gap)
    requires st.states[st.a].clock + gap < time <= st.steps[m].now
    ensures st.a <= tick < m && st.Ticks(who, tick)
    ensures time - gap <= st.steps[tick].now < time
  {
    var k := FirstNotBefore(st.steps, st.a, m, time);
    assert st.TickedLately(who, k, gap);
    tick :| st.a <= tick < k && st.Ticks(who, tick) && st.steps[k].now <= st.steps[tick].now + gap;
  }

  /** Of a steady side that ticks at least every `gap`: before any time that is 30 seconds and
      `gap` past the start, a heartbeat was sent no longer ago than that. */
  lemma BeatBefore(p: Pairing, st: Stretch, who: Party, m: nat, gap: int, time: Instant) returns (i: nat, packet: Packet)
    requires Steady(p, st, who, m) && m < st.b && st.TicksEvery(who, gap) && gap >= 0
    requires st.states[st.a].clock + 30 * SECOND + gap < time <= st.steps[m].now
    ensures st.a <= i < m && st.Beats(who, i, packet)
    ensures time - 30 * SECOND - gap < st.steps[i].now < time
  {
    SteadyIs(p, st, who, m);
    hide IsRunOf, PeerModel.Tick, IsHeartbeat, Steady;
    var tick := TickBefore(st, who, m, gap, time);
    RecentBeat(p, st, who, m, tick);
    SteadyUpTo(p, st, who, tick + 1, m);
    i, packet := BeatBehind(p, st, who, tick + 1);
    SteadyUpTo(p, st, who, st.a, m);
    AtStart(p, st, who);
    TimesRise(p, st, i, tick);
  }

  lemma AtStart(p: Pairing, st: Stretch, who: Party)
    requires Steady(p, st, who, st.a)
    ensures st.Clocks(who, st.a).lastHeartbeatSend <= st.states[st.a].clock
  {
    RunIsPast(p, st.states, st.steps, who, st.a);
    hide IsRunOf;
  }

  /** A tick finds the other side heard from within 90 seconds. */
  lemma NotSilent(p: Pairing, st: Stretch, who: Party, m: nat, gap: int, delay: int)
    requires Steady(p, st, who, m) && Steady(p, st, who.Other(), m) && m < st.b
    requires gap >= 0 && delay >= 0 && st.TicksEvery(who.Other(), gap) && st.BeatsArrive(who.Other(), delay)
    requires st.states[st.a].clock + gap + delay <= st.Clocks(who, st.a).lastReceived + 60 * SECOND
    ensures st.steps[m].now - st.Clocks(who, m).lastReceived <= 90 * SECOND
  {
    LongEnough(p, st);
    hide Beaten, IsRunOf, Start, PeerModel.Tick, IsHeartbeat, Admitted, Steady;
    SteadyIs(p, st, who, m);
    var now, start := st.steps[m].now, st.states[st.a].clock;
    Onwards(p, st, who, st.a, m);
    RunIsPast(p, st.states, st.steps, who, st.a);
    if now > start + 30 * SECOND + gap + delay {
      var i, packet := BeatBefore(p, st, who.Other(), m, gap, now - delay);
      HeardSince(p, st, who, packet, i, m, delay);
    }
  }

  /** A heartbeat that arrived has moved the receiving clock to its own time at least. */
  lemma HeardSince(p: Pairing, st: Stretch, who: Party, packet: Packet, i: nat, m: nat, delay: int)
    requires st.Of(p) && st.a <= i < m < st.b && st.Connected(who, st.a)
    requires st.Beats(who.Other(), i, packet) && st.BeatsArrive(who.Other(), delay)
    requires st.steps[m].now > st.steps[i].now + delay
    ensures st.Clocks(who, m).lastReceived >= st.steps[i].now
  {
    LongEnough(p, st);
    hide IsRunOf, PeerModel.Tick, IsHeartbeat;
    assert who.Other().Other() == who;
    assert st.Heard(who, packet, i, m, delay);
    var j: nat :|
      && i < j < m && st.steps[j] == Arrive(who, packet, st.steps[j].now)
      && Admitted(st.states[j], st.steps[j], who) && st.steps[j].now <= st.steps[i].now + delay;
    HeardAt(p, st, who, packet, i, j);
    Onwards(p, st, who, st.a, j + 1);
    Onwards(p, st, who, j + 1, m);
  }

  lemma HeardAt(p: Pairing, st: Stretch, who: Party, packet: Packet, i: nat, j: nat)
    requires st.Of(p) && i < j < |st.steps| && IsHeartbeat(packet)
    requires st.steps[j] == Arrive(who, packet, st.steps[j].now) && Admitted(st.states[j], st.steps[j], who)
    ensures st.steps[i].now <= st.steps[j].now == st.Clocks(who, j + 1).lastReceived
  {
    TimesRise(p, st, i, j);
    StepOf(p, st, j);
    hide Admitted, AllowPacket, Apply, Enabled, IsRunOf;
    StepClocks(st.states[j], st.steps[j], who);
  }

  lemma {:induction false} TimesRise(p: Pairing, st: Stretch, i: nat, j: nat)
    requires st.Of(p) && i <= j < |st.steps|
    ensures st.steps[i].now <= st.steps[j].now
  {
    hide Leads, Start;
    if i < j {
      TimesRise(p, st, i, j - 1);
      StepTime(st.states, st.steps, j - 1);
      StepTime(st.states, st.steps, j);
    }
  }

  lemma ConnectedAction(p: Peer, due: seq<u64>, now: Instant)
    requires p.link.connected && now - p.clocks.lastReceived <= 90 * SECOND
    ensures PeerModel.Tick(p, due, now).action == Continue
  {
    ChannelTicks.UpkeepFrame(p, now);
    UpkeepClocks(p, now);
    hide SendHeartbeat, RetryAll, Handshake;
    assert ConnectionAction(p, now) == (p, Continue);
  }

  /** At the start of the stretch `who` is connected and heard from the other side recently,
      during it `who` ticks at least every `gap` and its heartbeats arrive within `delay`, and
      no counter of `who` runs out. */
  ghost predicate KeptUp(p: Pairing, st: Stretch, who: Party, gap: int, delay: int) {
    && st.Of(p)
    && st.Connected(who, st.a)
    && st.states[st.a].clock + gap + delay <= st.Clocks(who, st.a).lastReceived + 60 * SECOND
    && st.TicksEvery(who, gap)
    && st.BeatsArrive(who, delay)
    && st.states[st.b].Get(who).status != Broken
  }

  lemma {:induction false} NotSilentBefore(p: Pairing, st: Stretch, gap: int, delay: int, m: nat)
    requires st.Of(p) && st.a <= m <= st.b && gap >= 0 && delay >= 0
    requires forall who: Party :: KeptUp(p, st, who, gap, delay)
    ensures forall i | st.a <= i < m && st.steps[i].Tick? :: st.Result(i).action == Continue
  {
    LongEnough(p, st);
    hide IsRunOf, Start, PeerModel.Tick;
    if st.a < m {
      var i := m - 1;
      NotSilentBefore(p, st, gap, delay, i);
      if st.steps[i].Tick? {
        var who := st.steps[i].who;
        assert KeptUp(p, st, who, gap, delay) && KeptUp(p, st, who.Other(), gap, delay);
        NotSilent(p, st, who, i, gap, delay);
        Onwards(p, st, who, st.a, i);
        ConnectedAction(st.states[i].Get(who).peer, st.steps[i].due, st.steps[i].now);
      }
    }
  }

  /** What heartbeats are for: two connected peers that both tick at least every `gap` and
      whose heartbeats arrive within `delay` never end their connection for silence, as long as
      `gap` and `delay` add up to no more than 60 seconds. */
  lemma NobodyFallsSilent(p: Pairing, st: Stretch, gap: int, delay: int)
    requires gap >= 0 && delay >= 0 && forall who: Party :: KeptUp(p, st, who, gap, delay)
    ensures forall i | st.a <= i < st.b && st.steps[i].Tick? :: st.Result(i).action == Continue
  {
    assert KeptUp(p, st, Initiator, gap, delay);
    hide KeptUp;
    NotSilentBefore(p, st, gap, delay, st.b);
  }
}
