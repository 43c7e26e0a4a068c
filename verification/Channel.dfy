/** Two peers of one pairing and the network between them, as a state machine.

    The network may lose, duplicate, reorder and reflect datagrams and may add datagrams
    that carry no handshake message and open under no session; it cannot forge. Each step
    is one run of a handler of one peer. */
module Channel {
  import opened Prelude
  import opened Protocol
  import opened PeerModel

  datatype Party = Initiator | Responder {
    function Other(): Party {
      if this == Initiator then Responder else Initiator
    }
  }

  /** `Ending`: a tick reported failure and the peer is about to be closed. `Broken`: a
      handler returned an error. A closed or broken peer does nothing more. */
  datatype Status = Live | Ending | Broken | Closed

  /** A peer with its history: every packet it ever sent and every event it ever raised,
      the sequences it accepted, when it asked the server for IPv4 and when each message
      was first sent. Only `peer` exists at run time. */
  datatype Side = Side(
    peer: Peer,
    sent: seq<Packet>,
    events: seq<Event>,
    accepted: set<u64>,
    asked: seq<Instant>,
    sentAt: map<u64, Instant>,
    status: Status)

  datatype System = System(initiator: Side, responder: Side, clock: Instant) {
    function Get(who: Party): Side {
      if who == Initiator then initiator else responder
    }

    function Set(who: Party, side: Side, now: Instant): System {
      if who == Initiator then this.(initiator := side, clock := now) else this.(responder := side, clock := now)
    }
  }

  // --- The start of a pairing ----------------------------------------------------------

  /** What the room and the PEER exchange fix for both ends. */
  datatype Pairing = Pairing(
    context: Context, ipv6: bool,
    initiatorKey: Key, responderKey: Key,
    initiatorName: string, responderName: string,
    initiatorStart: Instant, responderStart: Instant)
  {
    predicate Valid() {
      forall name | name in [initiatorName, responderName] :: IsNickname(name)
    }
  }

  function Begin(peer: Peer): Side {
    Side(peer, [], [], {}, [], map[], Live)
  }

  function Start(p: Pairing): System {
    System(
      Begin(NewPeer(p.context, true, p.initiatorKey, p.ipv6, p.initiatorName, p.initiatorStart)),
      Begin(NewPeer(p.context, false, p.responderKey, p.ipv6, p.responderName, p.responderStart)),
      if p.initiatorStart <= p.responderStart then p.initiatorStart else p.responderStart)
  }

  // --- Steps ---------------------------------------------------------------------------

  datatype Step =
    | Arrive(who: Party, packet: Packet, now: Instant)
    | Tick(who: Party, due: seq<u64>, now: Instant)
    | Say(who: Party, text: string, now: Instant)
    | Close(who: Party, order: seq<u64>, now: Instant)

  predicate InFlight(sys: System, packet: Packet) {
    packet in sys.initiator.sent || packet in sys.responder.sent
  }

  predicate Injectable(packet: Packet) {
    || packet.Foreign?
    || packet.Malformed?
    || packet.Punch?
    || (packet.Transport? && packet.body.Forgery?)
  }

  ghost predicate Enabled(sys: System, step: Step) {
    var side := sys.Get(step.who);
    && sys.clock <= step.now
    && side.peer.id.startedAt <= step.now
    && match step
       case Arrive(_, packet, _) => side.status == Live && (InFlight(sys, packet) || Injectable(packet))
       case Tick(_, due, now) => side.status == Live && Enumerates(due, DueIds(side.peer, now))
       case Say(_, _, _) => side.status == Live
       case Close(_, order, _) => (side.status == Live || side.status == Ending) && Enumerates(order, side.peer.outbox.pending.Keys)
  }

  function Advance(s: Side, e: Effect): Side {
    s.(peer := e.peer, sent := s.sent + e.sent, events := s.events + e.events,
       status := if e.error.Some? then Broken else s.status)
  }

  /** The packet reaches `HandlePlaintext`. */
  predicate Admits(p: Peer, packet: Packet, now: Instant) {
    && AllowPacket(p, now).1
    && packet.Transport?
    && p.link.transport.Some?
    && Opened(p, packet.sequence, packet.body).Some?
  }

  function ArriveAt(s: Side, packet: Packet, now: Instant): Side {
    Advance(s, Receive(s.peer, packet, now)).(
      accepted := if Admits(s.peer, packet, now) then s.accepted + {packet.sequence} else s.accepted)
  }

  function TickAt(s: Side, due: seq<u64>, now: Instant): Side {
    var r := PeerModel.Tick(s.peer, due, now);
    var t := Advance(s, r.effect);
    match r.action
    case Continue => t
    case RetryIpv4 => t.(asked := s.asked + [now])
    case _ => t.(status := Ending)
  }

  function SayAt(s: Side, text: string, now: Instant): Side {
    var e := SendMessage(s.peer, text, now);
    var t := Advance(s, e);
    if e.events != [] && e.events[0].MessagePending? then
      t.(sentAt := s.sentAt[e.events[0].id := now])
    else
      t
  }

  function CloseAt(s: Side, order: seq<u64>): Side {
    Advance(s, FailPending(s.peer, order)).(status := Closed)
  }

  function Apply(sys: System, step: Step): System {
    var s := sys.Get(step.who);
    var t :=
      match step
      case Arrive(_, packet, now) => ArriveAt(s, packet, now)
      case Tick(_, due, now) => TickAt(s, due, now)
      case Say(_, text, now) => SayAt(s, text, now)
      case Close(_, order, _) => CloseAt(s, order);
    sys.Set(step.who, t, step.now)
  }

  // --- Runs ----------------------------------------------------------------------------

  /** The `i`th step leads from the `i`th state to the next. */
  ghost predicate Leads(states: seq<System>, steps: seq<Step>, i: nat)
    requires i < |steps| < |states|
  {
    Enabled(states[i], steps[i]) && states[i + 1] == Apply(states[i], steps[i])
  }

  /** `states` are the states a run goes through, one more than it has steps. */
  ghost predicate IsRun(states: seq<System>, steps: seq<Step>) {
    |states| == |steps| + 1 && forall i | 0 <= i < |steps| :: Leads(states, steps, i)
  }

  /** A run of the pairing from its start. */
  ghost predicate IsRunOf(p: Pairing, states: seq<System>, steps: seq<Step>) {
    p.Valid() && IsRun(states, steps) && states[0] == Start(p)
  }

  /** The system is the end of some run of the pairing. */
  ghost predicate Reachable(p: Pairing, sys: System) {
    exists states, steps :: IsRunOf(p, states, steps) && states[|steps|] == sys
  }
}
