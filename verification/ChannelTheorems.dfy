/** What the two users of a pairing may rely on, in every reachable state of every run. */
module ChannelTheorems {
  import opened Prelude
  import opened Replay
  import opened Plaintext
  import opened PeerModel
  import opened Channel
  import opened ChannelInvariant
  import ChannelFrames
  import ChannelSteps
  import opened ChannelSends
  import ChannelTicks
  import opened ChannelPairs

  lemma ReachableInv(p: Pairing, sys: System)
    requires Reachable(p, sys)
    ensures SystemInv(sys)
  {
    var states, steps :| IsRunOf(p, states, steps) && states[|steps|] == sys;
    RunOfKeepsInv(p, states, steps, |steps|);
  }

  lemma RunOfKeepsInv(p: Pairing, states: seq<System>, steps: seq<Step>, i: nat)
    requires IsRunOf(p, states, steps) && i < |states|
    ensures SystemInv(states[i])
  {
    hide SystemInv, Start, IsRun;
    StartKeepsInv(p);
    RunKeepsInv(states, steps, i);
  }

  /** What a step does to either side, in a run. */
  lemma RunGrows(p: Pairing, states: seq<System>, steps: seq<Step>, who: Party, i: nat)
    requires IsRunOf(p, states, steps) && i < |steps|
    ensures Grows(states[i].Get(who), states[i + 1].Get(who))
  {
    hide Enabled, Apply, SystemInv, Start, Grows;
    RunOfKeepsInv(p, states, steps, i);
    assert Leads(states, steps, i);
    StepGrows(states[i], steps[i], who);
  }

  lemma ReachableSides(p: Pairing, sys: System, who: Party)
    requires Reachable(p, sys)
    ensures SideInv(sys.Get(who)) && SideInv(sys.Get(who.Other()))
    ensures PairInv(sys.Get(who), sys.Get(who.Other())) && PairInv(sys.Get(who.Other()), sys.Get(who))
    ensures Timely(sys)
  {
    hide SideInv, PairInv, Reachable, Timely;
    ReachableInv(p, sys);
  }

  // --- Authentic delivery --------------------------------------------------------------

  /** An id has one text. */
  lemma OneTextPerId(events: seq<Event>, id: u64, t1: string, t2: string)
    requires AnnouncedInOrder(events)
    requires MessagePending(id, t1) in events && MessagePending(id, t2) in events
    ensures t1 == t2
  {
    forall i, j | 0 <= i < |events| && 0 <= j < |events| && events[i] == MessagePending(id, t1)
      ensures events[j] == MessagePending(id, t2) ==> i == j
    {
    }
  }

  /** What is received was sent by the other side, under that id and with that text. */
  lemma ReceivedWasSent(p: Pairing, sys: System, who: Party, id: u64, text: string)
    requires Reachable(p, sys) && MessageReceived(id, text) in sys.Get(who).events
    ensures MessagePending(id, text) in sys.Get(who.Other()).events
    ensures forall other | MessagePending(id, other) in sys.Get(who.Other()).events :: other == text
  {
    ReachableSides(p, sys, who);
    var sender := sys.Get(who.Other());
    forall other | MessagePending(id, other) in sender.events ensures other == text {
      OneTextPerId(sender.events, id, other, text);
    }
  }

  /** What is reported delivered was sent and has been received, with exactly the text sent. */
  lemma DeliveredWasReceived(p: Pairing, sys: System, who: Party, id: u64)
    requires Reachable(p, sys) && MessageDelivered(id) in sys.Get(who).events
    ensures exists text ::
              MessagePending(id, text) in sys.Get(who).events && MessageReceived(id, text) in sys.Get(who.Other()).events
    ensures forall text | MessagePending(id, text) in sys.Get(who).events ::
              MessageReceived(id, text) in sys.Get(who.Other()).events
  {
    hide SideInv, Reachable;
    ReachableSides(p, sys, who);
    var receiver := sys.Get(who.Other());
    assert HasReceived(receiver.events, id);
    hide PairInv;
    var received :| MessageReceived(id, received) in receiver.events;
    ReceivedWasSent(p, sys, who.Other(), id, received);
  }

  // --- Connection agreement ------------------------------------------------------------

  /** Both transports come from one handshake transcript, and so do both safety numbers, which
      a public room has and a private one has not. */
  lemma SameSession(p: Pairing, sys: System)
    requires Reachable(p, sys)
    ensures
      var i, r := sys.initiator.peer.link, sys.responder.peer.link;
      && (i.transport.Some? ==> r.transport == i.transport)
      && (i.transport.Some? && r.transport.Some? ==>
            && i.safetyNumber == r.safetyNumber
            && i.safetyNumber == if sys.initiator.peer.id.context.security.Public? then i.transport else None)
  {
    hide SideInv, PairInv, Reachable;
    ReachableInv(p, sys);
    TransportsAgree(sys.initiator, sys.responder);
  }

  lemma TransportsAgree(i: Side, r: Side)
    requires SideInv(i) && SideInv(r) && PairInv(i, r) && PairInv(r, i) && i.peer.id.initiator
    ensures i.peer.link.transport.Some? ==> r.peer.link.transport == i.peer.link.transport
    ensures i.peer.link.transport.Some? && r.peer.link.transport.Some? ==>
              && i.peer.link.safetyNumber == r.peer.link.safetyNumber
              && i.peer.link.safetyNumber == if i.peer.id.context.security.Public? then i.peer.link.transport else None
  {
    hide Connects, Traffic, Receipts, AnnouncedInOrder, Accounts, Represents, Asks;
    assert CommonSession(i.peer, r.peer) == CommonSession(r.peer, i.peer);
  }

  /** A connected side is believed: the other side has the transport, has heard it is ready,
      and each knows the other's real nickname. If the other side is not yet connected, an
      acknowledgement is all it lacks. */
  lemma ConnectionAgreement(p: Pairing, sys: System, who: Party)
    requires Reachable(p, sys) && sys.Get(who).peer.link.connected
    ensures
      var me, other := sys.Get(who).peer, sys.Get(who.Other()).peer;
      && other.link.transport == me.link.transport && other.link.transport.Some?
      && other.link.readyReceived
      && me.link.peerNickname == Some(other.id.localNickname)
      && other.link.peerNickname == Some(me.id.localNickname)
      && (!other.link.connected && sys.Get(who.Other()).status != Broken ==> !other.link.readyAcked)
  {
    ReachableSides(p, sys, who);
  }

  /** `PeerConnected` is raised at most once and names the peer by its real nickname. */
  lemma ConnectedOnce(p: Pairing, sys: System, who: Party, i: nat, j: nat)
    requires Reachable(p, sys)
    requires i < |sys.Get(who).events| && sys.Get(who).events[i].PeerConnected?
    requires j < |sys.Get(who).events| && sys.Get(who).events[j].PeerConnected?
    ensures i == j && sys.Get(who).peer.link.connected
    ensures sys.Get(who).events[i].nickname == sys.Get(who.Other()).peer.id.localNickname
    ensures sys.Get(who).events[i].safetyNumber == sys.Get(who).peer.link.safetyNumber
  {
    ReachableSides(p, sys, who);
    var s := sys.Get(who);
    assert s.events[i] in s.events;
  }

  // --- Exactly once, within a window ---------------------------------------------------

  /** A further copy of an accepted packet changes nothing but clocks. */
  lemma AcceptedNeverAgain(p: Pairing, sys: System, who: Party, sequence: u64, body: Sealed, now: Instant)
    requires Reachable(p, sys) && sequence in sys.Get(who).accepted
    ensures
      var s := sys.Get(who);
      var e := Receive(s.peer, Transport(sequence, body), now);
      && !Admits(s.peer, Transport(sequence, body), now)
      && e == Effect(s.peer.(clocks := e.peer.clocks), [], [], None)
  {
    hide SideInv, PairInv, Reachable, Receive, Admits;
    ReachableSides(p, sys, who);
    RefusesAccepted(sys.Get(who), sequence, body, now);
  }

  lemma RefusesAccepted(s: Side, sequence: u64, body: Sealed, now: Instant)
    requires SideInv(s) && sequence in s.accepted
    ensures
      var e := Receive(s.peer, Transport(sequence, body), now);
      && !Admits(s.peer, Transport(sequence, body), now)
      && e == Effect(s.peer.(clocks := e.peer.clocks), [], [], None)
  {
    hide Handshaked, Connects, Traffic, Receipts, AnnouncedInOrder, Accounts, Asks, WouldAccept, HandlePlaintext, Record;
    assert Represents(s.peer.replay, s.accepted);
    AcceptsExactlyTheFresh(s.peer.replay, s.accepted, sequence);
    hide Represents;
    assert !WouldAccept(s.peer.replay, sequence);
  }

  /** Two deliveries of one id have at least 512 other deliveries between them. */
  lemma RedeliveryIsFarApart(p: Pairing, sys: System, who: Party, i: nat, j: nat)
    requires Reachable(p, sys) && i < j < |ReceivedIds(sys.Get(who).events)|
    requires ReceivedIds(sys.Get(who).events)[i] == ReceivedIds(sys.Get(who).events)[j]
    ensures j - i - 1 >= 512
  {
    ReachableSides(p, sys, who);
  }

  /** The dedup table lists, without repetition, exactly the ids it rejects, and is never
      longer than 512. */
  lemma DedupTable(p: Pairing, sys: System, who: Party)
    requires Reachable(p, sys)
    ensures
      var inbox := sys.Get(who).peer.inbox;
      && |inbox.receivedOrder| <= 512
      && (forall i, j | 0 <= i < j < |inbox.receivedOrder| :: inbox.receivedOrder[i] != inbox.receivedOrder[j])
      && (forall id :: id in inbox.receivedIds <==> id in inbox.receivedOrder)
  {
    hide PairInv, Reachable;
    ReachableSides(p, sys, who);
    assert Receipts(sys.Get(who));
    hide SideInv;
    TableOf(sys.Get(who));
  }

  lemma TableOf(s: Side)
    requires Receipts(s)
    ensures
      var inbox := s.peer.inbox;
      && |inbox.receivedOrder| <= MAX_HISTORY_DEDUP
      && (forall i, j | 0 <= i < j < |inbox.receivedOrder| :: inbox.receivedOrder[i] != inbox.receivedOrder[j])
      && (forall id :: id in inbox.receivedIds <==> id in inbox.receivedOrder)
  {
    hide ReceivedIds;
    var order, ids := s.peer.inbox.receivedOrder, ReceivedIds(s.events);
    forall i, j | 0 <= i < j < |order| ensures order[i] != order[j] {
      var base := |ids| - |order|;
      assert order[i] == ids[base + i] && order[j] == ids[base + j];
    }
  }

  /** A message that opens is shown to the user exactly when its id is not among the last
      512 shown. */
  lemma ShownExactlyWhenNotRecent(p: Pairing, sys: System, who: Party, id: u64, text: string)
    requires Reachable(p, sys) && sys.Get(who).peer.link.transport.Some?
    requires HandlePlain(sys.Get(who).peer, Message(id, text)).error.None?
    ensures
      var s := sys.Get(who);
      (MessageReceived(id, text) in HandlePlain(s.peer, Message(id, text)).events) <==>
      id !in Latest(ReceivedIds(s.events))
  {
    hide PairInv, Reachable, HandlePlain;
    ReachableSides(p, sys, who);
    assert Receipts(sys.Get(who));
    hide SideInv;
    ShownUnlessKnown(sys.Get(who).peer, id, text);
  }

  lemma ShownUnlessKnown(p: Peer, id: u64, text: string)
    requires p.link.transport.Some? && HandlePlain(p, Message(id, text)).error.None?
    ensures (MessageReceived(id, text) in HandlePlain(p, Message(id, text)).events) <==> id !in p.inbox.receivedIds
  {
    ChannelFrames.SealShape(p, Encode(MessageAck(id)));
    hide Seal, Encode;
  }

  /** At-most-once delivery of an id is not unconditional: 512 other deliveries later the
      table has forgotten it, and a late copy is delivered again. */
  lemma ForgottenAfter512(p: Peer, id: u64, others: seq<u64>, text: string)
    requires |others| == 512 && id !in others
    requires forall i, j | 0 <= i < j < |others| :: others[i] != others[j]
    requires p.inbox == InboxAfter([id] + others) && p.link.transport.Some?
    requires HandlePlain(p, Message(id, text)).error.None?
    ensures p.inbox.receivedOrder == others
    ensures MessageReceived(id, text) in HandlePlain(p, Message(id, text)).events
  {
    hide HandlePlain;
    InboxOfDistinct([id] + others);
    assert Latest([id] + others) == others;
    ShownUnlessKnown(p, id, text);
  }

  /** The table after the given arrivals, repeats being ignored. */
  function InboxAfter(arrivals: seq<u64>): Inbox {
    if arrivals == [] then
      Inbox({}, [])
    else
      var inbox := InboxAfter(arrivals[..|arrivals| - 1]);
      var id := arrivals[|arrivals| - 1];
      if id in inbox.receivedIds then inbox else Remember(inbox, id)
  }

  lemma {:induction false} InboxOfDistinct(ids: seq<u64>)
    requires forall i, j | 0 <= i < j < |ids| :: ids[i] != ids[j]
    ensures Remembers(InboxAfter(ids), ids)
  {
    if ids != [] {
      var front, id := ids[..|ids| - 1], ids[|ids| - 1];
      InboxOfDistinct(front);
      assert id !in Latest(front);
      ChannelSteps.RememberStep(InboxAfter(front), front, id);
      assert front + [id] == ids;
    }
  }

  /** With at most 512 messages sent in a peer's life, none is ever delivered twice. */
  lemma OnceWithinWindow(p: Pairing, sys: System, who: Party, i: nat, j: nat)
    requires Reachable(p, sys)
    requires forall e | e in sys.Get(who.Other()).events && e.MessagePending? :: 1 <= e.id <= 512
    requires i < j < |ReceivedIds(sys.Get(who).events)|
    ensures ReceivedIds(sys.Get(who).events)[i] != ReceivedIds(sys.Get(who).events)[j]
  {
    ReachableSides(p, sys, who);
    var s := sys.Get(who);
    var ids := ReceivedIds(s.events);
    forall k | 0 <= k < |ids| ensures 1 <= ids[k] <= MAX_HISTORY_DEDUP {
      ChannelSteps.ReceivedIdWasReceived(s.events, k);
      var text :| MessageReceived(ids[k], text) in s.events;
      assert MessagePending(ids[k], text) in sys.Get(who.Other()).events;
    }
    SpacedIsDistinct(ids);
  }

  lemma {:induction false} SpacedIsDistinct(ids: seq<u64>)
    requires Spaced(ids) && forall k | 0 <= k < |ids| :: 1 <= ids[k] <= MAX_HISTORY_DEDUP
    ensures forall i, j | 0 <= i < j < |ids| :: ids[i] != ids[j]
  {
    if ids != [] {
      var front := ids[..|ids| - 1];
      SpacedIsDistinct(front);
      DistinctIsShort(front, MAX_HISTORY_DEDUP);
      forall i, j | 0 <= i < j < |ids| ensures ids[i] != ids[j] {
        if j < |front| {
          assert front[i] != front[j];
        }
      }
    }
  }

  /** Distinct values between 1 and `n` number at most `n`. */
  lemma {:induction false} DistinctIsShort(ids: seq<u64>, n: nat)
    requires forall k | 0 <= k < |ids| :: 1 <= ids[k] <= n
    requires forall i, j | 0 <= i < j < |ids| :: ids[i] != ids[j]
    ensures |ids| <= n
  {
    if ids == [] {
    } else if k :| 0 <= k < |ids| && ids[k] == n {
      DistinctIsShort(ids[..k] + ids[k + 1..], n - 1);
    } else {
      assert 1 <= ids[0] <= n;
      DistinctIsShort(ids, n - 1);
    }
  }

  // --- Accounts ------------------------------------------------------------------------

  /** Each announced id is in exactly one of pending, delivered and failed, and is sent at
      most five times; at most 64 are pending. */
  lemma EveryMessageIsAccountedFor(p: Pairing, sys: System, who: Party, id: u64, text: string)
    requires Reachable(p, sys) && sys.Get(who).status != Broken
    requires MessagePending(id, text) in sys.Get(who).events
    ensures
      var s := sys.Get(who);
      var pending := id in s.peer.outbox.pending;
      var delivered, failed := MessageDelivered(id) in s.events, MessageFailed(id) in s.events;
      && (pending || delivered || failed)
      && !(pending && delivered) && !(pending && failed) && !(delivered && failed)
      && Transmissions(s.sent, id) <= 5
      && |s.peer.outbox.pending| <= 64
  {
    hide PairInv, Reachable;
    ReachableSides(p, sys, who);
    var s := sys.Get(who);
    assert Accounts(s);
    hide SideInv;
    AccountOf(s, id, text);
    OneFate(s.events, id);
  }

  lemma AccountOf(s: Side, id: u64, text: string)
    requires Accounts(s) && MessagePending(id, text) in s.events
    ensures SettledOnce(s.events) && Transmissions(s.sent, id) <= 5 && |s.peer.outbox.pending| <= MAX_PENDING_MESSAGES
    ensures id in s.peer.outbox.pending <==> !Settled(s.events, id)
  {
    hide Transmissions, SettledOnce;
    assert id in s.peer.outbox.pending ==> PendingEntry(s, id);
    assert id !in s.peer.outbox.pending ==> Settled(s.events, id);
  }

  lemma OneFate(events: seq<Event>, id: u64)
    requires SettledOnce(events)
    ensures !(MessageDelivered(id) in events && MessageFailed(id) in events)
  {
    forall i, j | 0 <= i < |events| && 0 <= j < |events| && events[i] == MessageDelivered(id)
      ensures events[j] != MessageFailed(id)
    {
      assert i < j ==> !(IsFinal(events[i]) && IsFinal(events[j])) || events[i].id != events[j].id;
      assert j < i ==> !(IsFinal(events[i]) && IsFinal(events[j])) || events[j].id != events[i].id;
    }
  }

  /** Retrying all of `due` fails only messages whose fifth wait is over. */
  lemma {:induction false} FailuresAreExhausted(p: Peer, due: seq<u64>, now: Instant, id: u64)
    requires AllDue(p, due, now) && MessageFailed(id) in RetryAll(p, due, now).events
    ensures id in due && p.outbox.pending[id].retries >= 4
  {
    if due != [] {
      var front, last := due[..|due| - 1], due[|due| - 1];
      var e := RetryAll(p, front, now);
      AllDueFront(p, due, now);
      RetryAllFrame(p, front, now);
      assert last in due && forall n | n in front :: n in due;
      if MessageFailed(id) in e.events {
        FailuresAreExhausted(p, front, now, id);
      } else {
        assert MessageFailed(id) in RetryOne(e.peer, last, now).events;
        RetryOneFailure(e.peer, last, now, id);
      }
    }
  }

  lemma RetryOneFailure(p: Peer, due: u64, now: Instant, id: u64)
    requires MessageFailed(id) in RetryOne(p, due, now).events
    ensures id == due && due in p.outbox.pending && p.outbox.pending[due].retries >= 4
  {
    if due in p.outbox.pending {
      var text := p.outbox.pending[due].text;
      ChannelFrames.SealShape(p.(outbox := p.outbox.(pending := p.outbox.pending - {due})), Encode(Message(due, text)));
    }
  }

  /** A tick gives a message up no earlier than 11.5 seconds after it was first sent. */
  lemma TimeoutsAreLate(p: Pairing, sys: System, who: Party, due: seq<u64>, now: Instant, id: u64)
    requires Reachable(p, sys) && Enabled(sys, Tick(who, due, now))
    requires MessageFailed(id) in PeerModel.Tick(sys.Get(who).peer, due, now).effect.events
    ensures
      var s := sys.Get(who);
      id in s.sentAt && now >= s.sentAt[id] + 11500 * MILLISECOND
  {
    hide PairInv, SideInv, Reachable, PeerModel.Tick;
    ReachableSides(p, sys, who);
    LateFailure(sys.Get(who), due, now, id);
  }

  lemma LateFailure(s: Side, due: seq<u64>, now: Instant, id: u64)
    requires SideInv(s) && s.status == Live && Enumerates(due, DueIds(s.peer, now))
    requires MessageFailed(id) in PeerModel.Tick(s.peer, due, now).effect.events
    ensures id in s.sentAt && now >= s.sentAt[id] + 11500 * MILLISECOND
  {
    hide Handshaked, Connects, Traffic, Receipts, AnnouncedInOrder, Represents, Asks, PeerModel.Tick;
    hide Transmissions, Settled, SettledOnce;
    ChannelTicks.EnumeratedAreDue(s.peer, due, now);
    TickFailures(s.peer, due, now, id);
    assert PendingEntry(s, id);
  }

  lemma TickFailures(p: Peer, due: seq<u64>, now: Instant, id: u64)
    requires AllDue(p, due, now) && MessageFailed(id) in PeerModel.Tick(p, due, now).effect.events
    ensures id in due && p.outbox.pending[id].retries >= 4
  {
    hide Handshake, SendHeartbeat, RetryAll;
    var (q, action) := ConnectionAction(p, now);
    var e := Handshake(q, now);
    var f := e.Then(SendHeartbeat(e.peer, now));
    ChannelTicks.UpkeepFrame(q, now);
    ChannelTicks.UpkeepFrame(e.peer, now);
    assert f.peer.outbox == p.outbox && f.events == [];
    FailuresAreExhausted(f.peer, due, now, id);
  }

  // --- Draining ------------------------------------------------------------------------

  /** The attempts, including the final giving up, that the messages up to `n` have left. */
  function AttemptsLeft(pending: map<u64, PendingMessage>, n: nat): nat {
    if n == 0 then
      0
    else
      AttemptsLeft(pending, n - 1) +
      (if n <= MAX_U64 && n in pending && pending[n].retries <= 4 then 5 - pending[n].retries else 0)
  }

  lemma {:induction false} AttemptsLeftFrame(a: map<u64, PendingMessage>, b: map<u64, PendingMessage>, id: u64, n: nat)
    requires id in a && a[id].retries <= 4 && 1 <= id
    requires forall k: u64 | k != id :: (k in a <==> k in b) && (k in a ==> a[k] == b[k])
    requires if a[id].retries == 4 then id !in b else id in b && b[id].retries == a[id].retries + 1
    ensures AttemptsLeft(b, n) == AttemptsLeft(a, n) - (if id <= n then 1 else 0)
  {
    if n > 0 {
      AttemptsLeftFrame(a, b, id, n - 1);
    }
  }

  /** Every due message costs exactly one attempt, so pending messages drain. */
  lemma {:induction false} RetriesSpendAttempts(p: Peer, due: seq<u64>, now: Instant, n: nat)
    requires AllDue(p, due, now) && RetryAll(p, due, now).error.None?
    requires forall id | id in p.outbox.pending :: 1 <= id <= n && p.outbox.pending[id].retries <= 4
    ensures AttemptsLeft(RetryAll(p, due, now).peer.outbox.pending, n) == AttemptsLeft(p.outbox.pending, n) - |due|
  {
    if due != [] {
      var front, id := due[..|due| - 1], due[|due| - 1];
      var e := RetryAll(p, front, now);
      AllDueFront(p, due, now);
      RetriesSpendAttempts(p, front, now, n);
      RetryAllFrame(p, front, now);
      assert e.peer.outbox.pending[id] == p.outbox.pending[id];
      RetryOneFrame(e.peer, id, now);
      RetryOneSpends(e.peer, id, now);
      AttemptsLeftFrame(e.peer.outbox.pending, RetryOne(e.peer, id, now).peer.outbox.pending, id, n);
    }
  }

  lemma RetryOneSpends(p: Peer, id: u64, now: Instant)
    requires id in p.outbox.pending && p.outbox.pending[id].retries <= 4
    requires RetryOne(p, id, now).error.None?
    ensures
      var b := RetryOne(p, id, now).peer.outbox.pending;
      if p.outbox.pending[id].retries == 4 then id !in b
      else id in b && b[id].retries == p.outbox.pending[id].retries + 1
  {
    if p.outbox.pending[id].retries < 4 {
      RepeatShape(p, id, now);
    }
  }

  /** A tick that goes through spends one attempt for every due message. */
  lemma TickDrains(p: Pairing, sys: System, who: Party, due: seq<u64>, now: Instant)
    requires Reachable(p, sys) && Enabled(sys, Tick(who, due, now))
    requires var r := PeerModel.Tick(sys.Get(who).peer, due, now); r.action == Continue && r.effect.error.None?
    ensures
      var s, t := sys.Get(who), TickAt(sys.Get(who), due, now);
      var n := s.peer.outbox.nextMessageId;
      AttemptsLeft(t.peer.outbox.pending, n) == AttemptsLeft(s.peer.outbox.pending, n) - |due|
  {
    hide PairInv, SideInv, Reachable, PeerModel.Tick, AttemptsLeft, Enumerates, DueIds, Timely;
    ReachableSides(p, sys, who);
    DrainingTick(sys.Get(who), due, now);
  }

  lemma DrainingTick(s: Side, due: seq<u64>, now: Instant)
    requires SideInv(s) && s.status == Live && Enumerates(due, DueIds(s.peer, now))
    requires var r := PeerModel.Tick(s.peer, due, now); r.action == Continue && r.effect.error.None?
    ensures
      var n := s.peer.outbox.nextMessageId;
      AttemptsLeft(PeerModel.Tick(s.peer, due, now).effect.peer.outbox.pending, n) ==
         AttemptsLeft(s.peer.outbox.pending, n) - |due|
  {
    hide Handshaked, Connects, Traffic, Receipts, AnnouncedInOrder, Represents, Asks, PeerModel.Tick;
    hide Transmissions, Settled, SettledOnce, AttemptsLeft;
    ChannelTicks.EnumeratedAreDue(s.peer, due, now);
    forall id | id in s.peer.outbox.pending
      ensures 1 <= id <= s.peer.outbox.nextMessageId && s.peer.outbox.pending[id].retries <= 4
    {
      assert PendingEntry(s, id);
    }
    TickSpends(s.peer, due, now, s.peer.outbox.nextMessageId);
  }

  /** Once no attempts are left, nothing is pending. */
  lemma {:induction false} NoAttemptsNothingPending(pending: map<u64, PendingMessage>, n: nat, id: u64)
    requires AttemptsLeft(pending, n) == 0 && 1 <= id <= n
    requires id in pending ==> pending[id].retries <= 4
    ensures id !in pending
  {
    if id < n {
      NoAttemptsNothingPending(pending, n - 1, id);
    }
  }

  lemma TickSpends(p: Peer, due: seq<u64>, now: Instant, n: nat)
    requires AllDue(p, due, now)
    requires forall id | id in p.outbox.pending :: 1 <= id <= n && p.outbox.pending[id].retries <= 4
    requires var r := PeerModel.Tick(p, due, now); r.action == Continue && r.effect.error.None?
    ensures
      AttemptsLeft(PeerModel.Tick(p, due, now).effect.peer.outbox.pending, n) == AttemptsLeft(p.outbox.pending, n) - |due|
  {
    hide Handshake, SendHeartbeat, RetryAll;
    var (q, action) := ConnectionAction(p, now);
    var e := Handshake(q, now);
    var f := e.Then(SendHeartbeat(e.peer, now));
    ChannelTicks.UpkeepFrame(q, now);
    ChannelTicks.UpkeepFrame(e.peer, now);
    assert f.peer.outbox == p.outbox;
    RetriesSpendAttempts(f.peer, due, now, n);
  }

  // --- No reuse ------------------------------------------------------------------------

  /** No sequence is used for two packets, and no id for two texts. */
  lemma NothingIsReused(p: Pairing, sys: System, who: Party, i: nat, j: nat)
    requires Reachable(p, sys) && i < |sys.Get(who).sent| && j < |sys.Get(who).sent|
    requires sys.Get(who).sent[i].Transport? && sys.Get(who).sent[j].Transport?
    ensures sys.Get(who).sent[i].sequence == sys.Get(who).sent[j].sequence ==> i == j
    ensures
      var a, b := sys.Get(who).sent[i].body, sys.Get(who).sent[j].body;
      && a.Sealed? && b.Sealed? && Parse(a.plaintext).Some? && Parse(b.plaintext).Some?
      && var m, n := Parse(a.plaintext).value, Parse(b.plaintext).value;
         m.Message? && n.Message? && m.id == n.id ==> m.text == n.text
  {
    ReachableSides(p, sys, who);
    var s := sys.Get(who);
    assert s.sent[i] in s.sent && s.sent[j] in s.sent;
    assert Own(s, s.sent[i]) && Own(s, s.sent[j]);
    var m, n := Parse(s.sent[i].body.plaintext).value, Parse(s.sent[j].body.plaintext).value;
    if m.Message? && n.Message? && m.id == n.id {
      OneTextPerId(s.events, m.id, m.text, n.text);
    }
  }

  /** The id counter never wraps: whenever it could, the sequence counter has stopped. */
  lemma CounterStopsBeforeIdsWrap(p: Pairing, sys: System, who: Party, text: string, now: Instant)
    requires Reachable(p, sys) && sys.Get(who).status == Live
    ensures
      var s, t := sys.Get(who), SayAt(sys.Get(who), text, now);
      && (s.peer.outbox.nextMessageId == MAX_U64 ==> s.peer.sendSequence == MAX_U64)
      && (t.status == Live ==> t.peer.outbox.nextMessageId >= s.peer.outbox.nextMessageId)
  {
    hide PairInv, SideInv, Reachable;
    ReachableSides(p, sys, who);
    IdsRise(sys.Get(who), text, now);
  }

  lemma IdsRise(s: Side, text: string, now: Instant)
    requires SideInv(s) && s.status == Live
    ensures s.peer.outbox.nextMessageId == MAX_U64 ==> s.peer.sendSequence == MAX_U64
    ensures
      var t := SayAt(s, text, now);
      t.status == Live ==> t.peer.outbox.nextMessageId >= s.peer.outbox.nextMessageId
  {
    hide Connects, Traffic, Receipts, AnnouncedInOrder, Represents, Asks;
    hide Transmissions, Settled, SettledOnce, PendingEntry, Encode;
    var q := s.peer.(outbox := s.peer.outbox.(nextMessageId := NextId(s.peer.outbox.nextMessageId)));
    assert Accounts(s) && Handshaked(s.peer);
    ChannelFrames.SealShape(q, Encode(Message(s.peer.outbox.nextMessageId, text)));
  }

  // --- Requests for IPv4 ---------------------------------------------------------------

  lemma {:induction false} AsksSpread(asked: seq<Instant>, k: nat)
    requires forall i | 0 < i < |asked| :: asked[i - 1] + SECOND <= asked[i]
    requires k < |asked|
    ensures asked[0] + k * SECOND <= asked[k]
  {
    if k > 0 {
      AsksSpread(asked, k - 1);
    }
  }

  /** An unconnected IPv6 peer asks for IPv4 at most seven times, a second apart, between
      three and ten seconds after it started; an IPv4 peer never asks. */
  lemma AtMostSevenAsks(p: Pairing, sys: System, who: Party)
    requires Reachable(p, sys)
    ensures
      var s := sys.Get(who);
      && |s.asked| <= 7
      && (s.asked != [] ==> s.peer.id.ipv6)
      && (forall k | 0 <= k < |s.asked| :: s.peer.id.startedAt + 3 * SECOND <= s.asked[k] < s.peer.id.startedAt + 10 * SECOND)
      && (forall k | 0 < k < |s.asked| :: s.asked[k - 1] + SECOND <= s.asked[k])
  {
    hide PairInv, Reachable, Timely;
    ReachableSides(p, sys, who);
    assert Asks(sys.Get(who));
    hide SideInv;
    AtMostSeven(sys.Get(who));
  }

  lemma AtMostSeven(s: Side)
    requires Asks(s)
    ensures |s.asked| <= 7
  {
    if |s.asked| > 7 {
      AsksSpread(s.asked, 7);
      assert false;
    }
  }

  /** The first tick at or after ten seconds ends an attempt that has not connected. */
  lemma TenSecondsEndTheAttempt(sys: System, who: Party, due: seq<u64>, now: Instant)
    requires Enabled(sys, Tick(who, due, now)) && !sys.Get(who).peer.link.connected
    ensures Apply(sys, Tick(who, due, now)).Get(who).status == Ending <==>
            now >= sys.Get(who).peer.id.startedAt + 10 * SECOND
  {
    var s := sys.Get(who);
    var (q, action) := ConnectionAction(s.peer, now);
    ChannelTicks.UpkeepFrame(q, now);
    hide Handshake, SendHeartbeat, RetryAll;
  }

  /** A tick ends a connection exactly when nothing has been received for over 90 seconds. */
  lemma SilenceEndsTheConnection(sys: System, who: Party, due: seq<u64>, now: Instant)
    requires Enabled(sys, Tick(who, due, now)) && sys.Get(who).peer.link.connected
    ensures
      var silent := Since(now, sys.Get(who).peer.clocks.lastReceived) > 90 * SECOND;
      Apply(sys, Tick(who, due, now)).Get(who).status == Ending <==> silent
  {
    hide SendHeartbeat, RetryAll, Seal, Encode;
    var p := sys.Get(who).peer;
    assert ConnectionAction(p, now) == (p, Continue);
    var e := Handshake(p, now);
    assert e.error.None? && e.peer.link == p.link && e.peer.clocks.lastReceived == p.clocks.lastReceived;
  }
}
