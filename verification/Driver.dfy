/**
 The reconnect driver of cmd/quipd: each cycle keeps one target session alive, and gates dialing on
 suppressions and on the record of failed attempts.
 */
module Driver {
  import opened Model
  import opened Transport
  import opened QuicAdapter
  import opened ControlPlane
  import opened ControlLoops
  import D = DurableState

  const RECONNECT_MAX_ATTEMPTS := 5
  const RECONNECT_BASE_BACKOFF_SECS := 5
  const RECONNECT_MAX_BACKOFF_SECS := 300

  /** The target that the daemon was started with: no peer means the first known one. */
  datatype Goal = Goal(peer: Option<PeerId>, protocol: string, class_: TrafficClass)

  /**
   What one cycle sees: the state and the sessions listed by the cycle so far, the durable state that
   dialing reloads, and a second reading of the clock for a failed dial.
   */
  datatype Cycle = Cycle(
    known: D.DaemonState, listed: seq<SessionSnapshot>, goal: Goal, durable: D.DaemonState, inputs: Inputs, failedAt: nat)

  datatype TargetOutcome =
    | TargetReused(session: SessionSnapshot)
    | TargetActive(session: SessionSnapshot)
    | TargetSuppressed(reason: string)
    | TargetBackingOff(attempts: nat, retryIn: nat, reason: string)
    | TargetFailed(attempts: nat, reason: string)

  predicate IsProtocolId(text: string) {
    StartsWith(text, "/") && CountChar(text, '/') >= 2
  }

  function TargetPeer(known: D.DaemonState, goal: Goal): Option<PeerId> {
    if goal.peer.Some? then goal.peer
    else if known.peers == [] then None
    else Some(known.peers[0].peer)
  }

  /** The first listed session of the key that the adapter still owns. */
  function FindTarget(listed: seq<SessionSnapshot>, live: set<SessionId>, key: SessionKey): Option<SessionSnapshot> {
    if listed == [] then None
    else if KeyOf(listed[0]) == key && listed[0].sessionId in live then Some(listed[0])
    else FindTarget(listed[1..], live, key)
  }

  /** What a cycle may do for its target. */
  datatype Gate =
    | NoTarget
    | BadProtocol
    | Reuse(session: SessionSnapshot)
    | HeldBack(key: SessionKey, reason: string)
    | GivenUp(attempt: ReconnectAttempt)
    | Waiting(attempt: ReconnectAttempt)
    | Dial(key: SessionKey)

  function GateOf(w: World, c: Cycle): Gate {
    match TargetPeer(c.known, c.goal)
    case None => NoTarget
    case Some(peer) =>
      var key := SessionKey(peer, Some(c.goal.protocol), c.goal.class_);
      match FindTarget(c.listed, w.sessions.Keys, key)
      case Some(session) => Reuse(session)
      case None =>
        if !IsProtocolId(c.goal.protocol) then BadProtocol
        else
          match FindSuppression(w.suppressions, key)
          case Some(suppression) => HeldBack(key, suppression.reason)
          case None =>
            match FindAttempt(w.attempts, key)
            case Some(attempt) =>
              if attempt.state == AttemptFailed then GivenUp(attempt)
              else if c.inputs.now < attempt.nextAttempt then Waiting(attempt)
              else Dial(key)
            case None => Dial(key)
  }

  function SaturatingSub(a: nat, b: nat): nat {
    if a <= b then 0 else a - b
  }

  function Started(w: World, key: SessionKey, now: nat): World {
    Emit(w, "reconnect.started", "peer", key.peer, now)
  }

  function RealizeTarget(cfg: Config, w: World, c: Cycle, key: SessionKey)
    : (World, Result<SessionSnapshot, D.DaemonError>)
  {
    RealizeBestPath(cfg, D.Recached(c.durable), Started(w, key, c.inputs.now), key.peer, c.goal.protocol, key.class_,
                    c.inputs)
  }

  function FailureText(error: D.DaemonError): string {
    match error
    case NoRouteTo(peer) => "no route is available for peer " + peer
    case PeerNotFound(peer) => "peer " + peer + " was not found in daemon state"
    case PolicyRejects(reason) => "transport policy denied request: " + reason
    case TransportFailed(transport) => "transport execution failed: " + ErrorText(transport)
    case _ => "reconnect failed"
  }

  function Scheduled(w: World, key: SessionKey, reason: string, failedAt: nat): (World, ReconnectAttempt) {
    ScheduleReconnect(w, key, reason, RECONNECT_MAX_ATTEMPTS, RECONNECT_BASE_BACKOFF_SECS,
                      RECONNECT_MAX_BACKOFF_SECS, failedAt)
  }

  function AttemptOutcome(attempt: ReconnectAttempt, now: nat): TargetOutcome {
    if attempt.state == AttemptFailed then TargetFailed(attempt.attemptCount, attempt.reason)
    else TargetBackingOff(attempt.attemptCount, SaturatingSub(attempt.nextAttempt, now), attempt.reason)
  }

  function DialTarget(cfg: Config, w: World, c: Cycle, key: SessionKey): (World, TargetOutcome) {
    var (dialed, outcome) := RealizeTarget(cfg, w, c, key);
    match outcome
    case Ok(session) =>
      (ClearReconnectAttempt(dialed, key, "reconnect succeeded", c.inputs.now), TargetActive(session))
    case Err(error) =>
      var (stored, attempt) := Scheduled(dialed, key, FailureText(error), c.failedAt);
      (stored, AttemptOutcome(attempt, c.inputs.now))
  }

  function EnsureTarget(cfg: Config, w: World, c: Cycle): (World, Result<TargetOutcome, D.DaemonError>) {
    var now := c.inputs.now;
    match GateOf(w, c)
    case NoTarget => (w, Err(D.InvalidSession))
    case BadProtocol => (w, Err(D.InvalidSession))
    case Reuse(session) =>
      (ClearReconnectAttempt(w, KeyOf(session), "session already active", now), Ok(TargetReused(session)))
    case HeldBack(key, reason) =>
      (ClearReconnectAttempt(w, key, "reconnect suppressed by policy", now), Ok(TargetSuppressed(reason)))
    case GivenUp(attempt) => (w, Ok(AttemptOutcome(attempt, now)))
    case Waiting(attempt) => (w, Ok(AttemptOutcome(attempt, now)))
    case Dial(key) =>
      var (after, outcome) := DialTarget(cfg, w, c, key);
      (after, Ok(outcome))
  }

  // ---------------------------------------------------------------- the cycle as a method

  method FindListed(listed: seq<SessionSnapshot>, live: set<SessionId>, key: SessionKey)
    returns (found: Option<SessionSnapshot>)
    ensures found == FindTarget(listed, live, key)
  {
    for i := 0 to |listed|
      invariant FindTarget(listed, live, key) == FindTarget(listed[i..], live, key)
    {
      assert listed[i..][1..] == listed[i + 1..];
      if KeyOf(listed[i]) == key && listed[i].sessionId in live {
        return Some(listed[i]);
      }
    }
    found := None;
  }

  method EnsureTargetSession(control: LocalControlPlane, transport: QuicTransportAdapter, known: D.DaemonState,
                             listed: seq<SessionSnapshot>, goal: Goal, inputs: Inputs, failedAt: nat)
    returns (outcome: Result<TargetOutcome, D.DaemonError>)
    requires transport.Valid()
    modifies control, transport, transport.control.Runtimes()
    ensures transport.Valid()
    ensures (transport.View(), outcome)
         == EnsureTarget(transport.cfg, old(transport.View()),
                         Cycle(known, listed, goal, old(control.state), inputs, failedAt))
    ensures control.state == if outcome.Ok? && outcome.value.TargetActive? then D.Recached(old(control.state))
                             else old(control.state)
  {
    hide RealizeBestPath, ScheduleReconnect, ClearReconnectAttempt, PushEvent, FindTarget, D.Recached, IsProtocolId,
         FindSuppression, FindAttempt, LastN, FailureText;
    var now := inputs.now;
    var peer := TargetPeer(known, goal);
    if peer.None? {
      return Err(D.InvalidSession);
    }
    var key := SessionKey(peer.value, Some(goal.protocol), goal.class_);
    var existing := FindListed(listed, transport.sessions.Keys, key);
    if existing.Some? {
      transport.ClearReconnectAttempt(KeyOf(existing.value), "session already active", now);
      return Ok(TargetReused(existing.value));
    }
    if !IsProtocolId(goal.protocol) {
      return Err(D.InvalidSession);
    }
    var suppression := FindSuppression(transport.suppressions, key);
    if suppression.Some? {
      transport.ClearReconnectAttempt(key, "reconnect suppressed by policy", now);
      return Ok(TargetSuppressed(suppression.value.reason));
    }
    var attempt := FindAttempt(transport.attempts, key);
    if attempt.Some? && (attempt.value.state == AttemptFailed || now < attempt.value.nextAttempt) {
      return Ok(AttemptOutcome(attempt.value, now));
    }
    transport.EmitRuntimeEvent("reconnect.started", "peer", key.peer, now);
    var dialed := control.RealizeBestPath(transport, key.peer, goal.protocol, goal.class_, inputs);
    if dialed.Ok? {
      transport.ClearReconnectAttempt(key, "reconnect succeeded", now);
      return Ok(TargetActive(dialed.value));
    }
    var scheduled := transport.ScheduleReconnect(key, FailureText(dialed.error), RECONNECT_MAX_ATTEMPTS,
                                                 RECONNECT_BASE_BACKOFF_SECS, RECONNECT_MAX_BACKOFF_SECS, failedAt);
    outcome := Ok(AttemptOutcome(scheduled, now));
  }
}
