/** The signaling server as a state machine: any interleaving of client lines, UDP
    registrations, timers, clean-ups, disconnections and failed handlers, together with
    every line each client has ever been sent. */
module ServerRuns {
  import opened Prelude
  import opened Rooms

  /** A client's handler: its `current_room`, and whether it still runs. A handler that
      returns an error stops without cleaning up. */
  datatype Session = Session(current: Option<RoomId>, live: bool)

  /** `heard`, `used` and `bumps` are history: the lines sent to each client, every room id
      ever in the table, and how often the rank counter moved. */
  datatype World = World(
    server: Server, sessions: map<ClientId, Session>, timers: set<Timer>, clock: Instant,
    heard: Out, used: set<RoomId>, bumps: nat)

  const START := World(EMPTY_SERVER, map[], {}, 0, map[], {}, 0)

  datatype Step =
    | Arrive(client: ClientId, now: Instant)
    | Say(client: ClientId, parts: seq<string>, env: Env)
    | Locate(client: ClientId, address: Address, order: seq<RoomId>, now: Instant)
    | Announce(client: ClientId, dualStack: bool, now: Instant)
    | Fire(timer: Timer, now: Instant)
    | Sweep(ids: seq<RoomId>, now: Instant)
    | Hangup(client: ClientId, env: Env)
    | Abort(client: ClientId, now: Instant)
  {
    function Now(): Instant {
      if Say? || Hangup? then env.now else now
    }
  }

  predicate Live(w: World, client: ClientId) {
    client in w.sessions && w.sessions[client].live
  }

  ghost predicate Plausible(w: World, client: ClientId, env: Env) {
    && (client in w.sessions && w.sessions[client].current.Some? ==>
          OrdersHeirs(w.server, w.sessions[client].current.value, client, env.heirs))
    && Enumerates(env.listing, w.server.rooms.Keys)
  }

  /** Client ids are drawn at random and taken to be new. A timer may fire at any time from
      its due time on. */
  ghost predicate Enabled(w: World, step: Step) {
    && w.clock <= step.Now()
    && match step
       case Arrive(client, _) => client !in w.sessions
       case Say(client, _, env) => Live(w, client) && Plausible(w, client, env)
       case Locate(_, _, order, _) => Enumerates(order, w.server.rooms.Keys)
       case Announce(_, _, _) => true
       case Fire(timer, now) => timer in w.timers && timer.due <= now
       case Sweep(ids, now) => Enumerates(ids, Expired(w.server, now))
       case Hangup(client, env) => Live(w, client) && Plausible(w, client, env)
       case Abort(client, _) => Live(w, client)
  }

  function Absorb(w: World, change: Change, now: Instant): World {
    w.(server := change.server,
       timers := w.timers + change.timers,
       clock := now,
       heard := Merge(w.heard, change.out),
       used := w.used + change.server.rooms.Keys,
       bumps := w.bumps + (if change.server.nextRank != w.server.nextRank then 1 else 0))
  }

  function ChangeOf(w: World, step: Step): Change
    requires Enabled(w, step)
  {
    match step
    case Arrive(client, _) => Change(Connect(w.server, client), map[], {})
    case Say(client, parts, env) => HandleLine(w.server, client, w.sessions[client].current, parts, env).change
    case Locate(client, address, order, _) => Register(w.server, client, address, order)
    case Announce(client, dualStack, _) => Change(Probe(w.server, client, dualStack), map[], {})
    case Fire(timer, _) => Change(w.server, MatchTimeout(w.server, timer), {})
    case Sweep(ids, _) => Cleanup(w.server, ids)
    case Hangup(client, env) => Goodbye(w.server, client, w.sessions[client].current, env)
    case Abort(_, _) => Unchanged(w.server)
  }

  function SessionsAfter(w: World, step: Step): map<ClientId, Session>
    requires Enabled(w, step)
  {
    match step
    case Arrive(client, _) => w.sessions[client := Session(None, true)]
    case Say(client, parts, env) =>
      w.sessions[client := Session(HandleLine(w.server, client, w.sessions[client].current, parts, env).current, true)]
    case Hangup(client, _) => w.sessions[client := Session(None, false)]
    case Abort(client, _) => w.sessions[client := w.sessions[client].(live := false)]
    case _ => w.sessions
  }

  function Apply(w: World, step: Step): World
    requires Enabled(w, step)
  {
    Absorb(w, ChangeOf(w, step), step.Now()).(sessions := SessionsAfter(w, step))
  }

  ghost predicate IsRun(w: World, steps: seq<Step>, end: World)
    decreases |steps|
  {
    if steps == [] then
      w == end
    else
      Enabled(w, steps[0]) && IsRun(Apply(w, steps[0]), steps[1..], end)
  }

  /** No room id comes back once its room is gone. */
  ghost predicate Fresh(w: World, step: Step)
    requires Enabled(w, step)
  {
    forall id | id in ChangeOf(w, step).server.rooms && id !in w.server.rooms :: id !in w.used
  }

  ghost predicate IsFreshRun(w: World, steps: seq<Step>, end: World)
    decreases |steps|
  {
    if steps == [] then
      w == end
    else
      Enabled(w, steps[0]) && Fresh(w, steps[0]) && IsFreshRun(Apply(w, steps[0]), steps[1..], end)
  }

  ghost predicate Reachable(w: World) {
    exists start: Instant, steps :: IsRun(START.(clock := start), steps, w)
  }

  ghost predicate ReachableWithFreshIds(w: World) {
    exists start: Instant, steps :: IsFreshRun(START.(clock := start), steps, w)
  }

  // --- Reading a transcript ------------------------------------------------------------

  /** Since the last reset: the families exchanged and whether the failure was announced. */
  datatype Phase = Phase(exchanges: seq<Family>, disconnected: bool)

  predicate IsAdmission(line: Line) {
    line.Created? || line.PublicCreated? || line.Joined? || line.PublicJoined?
  }

  predicate IsReset(line: Line) {
    IsAdmission(line) || line == Text("PEER_LEFT") || line == Text("REFRESH_UDP")
  }

  predicate IsDisconnect(line: Line) {
    line == Text("P2P_DISCONNECTED")
  }

  predicate Neutral(line: Line) {
    !IsReset(line) && !line.Peer? && !IsDisconnect(line)
  }

  /** One more line, or `None` when the line may not come here. */
  function NextPhase(phase: Option<Phase>, line: Line): Option<Phase> {
    if phase.None? then None
    else if IsReset(line) then Some(Phase([], false))
    else if line.Peer? then
      var family := line.endpoint.Family();
      if !phase.value.disconnected && (phase.value.exchanges == [] || (phase.value.exchanges == [V6] && family == V4)) then
        Some(phase.value.(exchanges := phase.value.exchanges + [family]))
      else
        None
    else if IsDisconnect(line) then
      if phase.value.disconnected then None else Some(phase.value.(disconnected := true))
    else
      phase
  }

  function PhaseOf(lines: seq<Line>): Option<Phase> {
    if lines == [] then Some(Phase([], false)) else NextPhase(PhaseOf(lines[..|lines| - 1]), lines[|lines| - 1])
  }

  /** The session nonce the client was told last. */
  function NonceOf(lines: seq<Line>): Option<Nonce> {
    if lines == [] then None
    else if IsAdmission(lines[|lines| - 1]) then Some(lines[|lines| - 1].nonce)
    else NonceOf(lines[..|lines| - 1])
  }

  lemma OneLine(lines: seq<Line>, line: Line)
    ensures PhaseOf(lines + [line]) == NextPhase(PhaseOf(lines), line)
    ensures NonceOf(lines + [line]) == if IsAdmission(line) then Some(line.nonce) else NonceOf(lines)
  {
    assert (lines + [line])[..|lines|] == lines;
  }

  lemma {:induction false} NeutralLines(lines: seq<Line>, more: seq<Line>)
    requires forall line | line in more :: Neutral(line)
    ensures PhaseOf(lines + more) == PhaseOf(lines) && NonceOf(lines + more) == NonceOf(lines)
  {
    if more == [] {
      assert lines + more == lines;
    } else {
      var front, last := more[..|more| - 1], more[|more| - 1];
      NeutralLines(lines, front);
      OneLine(lines + front, last);
      assert lines + more == lines + front + [last];
      assert last in more;
    }
  }

  lemma {:induction false} PhaseShape(lines: seq<Line>)
    requires PhaseOf(lines).Some?
    ensures PhaseOf(lines).value.exchanges in [[], [V4], [V6], [V6, V4]]
  {
    if lines != [] {
      PhaseShape(lines[..|lines| - 1]);
      assert [V6] + [V4] == [V6, V4] && [] + [V4] == [V4] && [] + [V6] == [V6];
    }
  }

  ghost predicate NoResetBetween(lines: seq<Line>, i: nat, j: nat) {
    forall k | i < k < j && k < |lines| :: !IsReset(lines[k])
  }

  /** What an orderly transcript looks like: between two resets there are at most two
      exchanges, the second for IPv4 after one for IPv6, the failure is announced at most
      once, and nothing is exchanged after it. */
  lemma {:induction false} OrderlyTranscript(lines: seq<Line>, i: nat, j: nat)
    requires PhaseOf(lines).Some? && i < j < |lines| && NoResetBetween(lines, i, j)
    ensures lines[i].Peer? && lines[j].Peer? ==> lines[i].endpoint.Family() == V6 && lines[j].endpoint.Family() == V4
    ensures IsDisconnect(lines[i]) ==> !IsDisconnect(lines[j]) && !lines[j].Peer?
  {
    PhaseOfPrefix(lines, j + 1);
    assert lines[..j + 1][..j] == lines[..j];
    PhaseShape(lines[..j]);
    Remembered(lines, i, j);
  }

  lemma {:induction false} PhaseOfPrefix(lines: seq<Line>, n: nat)
    requires PhaseOf(lines).Some? && n <= |lines|
    ensures PhaseOf(lines[..n]).Some?
  {
    if n < |lines| {
      var front := lines[..|lines| - 1];
      PhaseOfPrefix(front, n);
      assert front[..n] == lines[..n];
    } else {
      assert lines[..n] == lines;
    }
  }

  /** Until a reset, exchanges and the failure announcement are remembered. */
  lemma {:induction false} Remembered(lines: seq<Line>, i: nat, j: nat)
    requires i < j <= |lines| && PhaseOf(lines[..j]).Some? && NoResetBetween(lines, i, j)
    ensures lines[i].Peer? ==> lines[i].endpoint.Family() in PhaseOf(lines[..j]).value.exchanges
    ensures IsDisconnect(lines[i]) ==> PhaseOf(lines[..j]).value.disconnected
  {
    assert lines[..j][..j - 1] == lines[..j - 1];
    if j > i + 1 {
      Remembered(lines, i, j - 1);
    }
  }
}
