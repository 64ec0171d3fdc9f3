/**
 The runtime transport's records and operations (crates/transport, crates/quic) as functions on one
 value, `World`: the adapter's registries together with the relay services it talks to.

 Clock readings, random ids and the outcome of the credential check come in as `Inputs`. A relay
 whose endpoint is in `down` cannot be reached.
 */
module Transport {
  import opened Model
  import opened RelayWire

  datatype RouteSource = Observed | Bootstrap | AuthorityRelay

  datatype RelayPlan = RelayPlan(
    relayPeer: PeerId, relayEndpoints: seq<string>, relayControlEndpoint: Endpoint,
    destinationEndpoints: seq<string>, supportsDatagrams: bool, supportsPathMigration: bool)

  datatype RoutePlan = RoutePlan(
    localPeer: PeerId, peer: PeerId, protocol: Option<ProtocolId>, class_: TrafficClass,
    pathKind: PathKind, source: RouteSource, remoteEndpoints: seq<string>, relay: Option<RelayPlan>)

  datatype RuntimeSessionState =
    Connecting | Active | Degraded | Migrating | Reconciling | Closing | Closed_ | Failed

  datatype SessionClosureReason =
    OperatorRequested | LocalRuntimeFailure | RemoteFailure | PolicyRejected | PathExhaustion | DaemonShutdown

  datatype SessionSnapshot = SessionSnapshot(
    sessionId: SessionId, transportSessionId: SessionId, relayAttemptId: Option<SessionId>,
    peer: PeerId, protocol: Option<ProtocolId>, class_: TrafficClass, pathKind: PathKind,
    source: RouteSource, remoteEndpoint: string, relayPeer: Option<PeerId>,
    relayEndpoint: Option<string>, relayControlEndpoint: Option<Endpoint>,
    datagramsCapable: bool, migrationCapable: bool, state: RuntimeSessionState,
    closureReason: Option<SessionClosureReason>, stateReason: Option<string>,
    createdAt: nat, lastActivity: nat)

  /** Who a session serves: the key of suppressions and reconnect attempts. */
  datatype SessionKey = SessionKey(peer: PeerId, protocol: Option<ProtocolId>, class_: TrafficClass)

  datatype ReconnectSuppression = ReconnectSuppression(key: SessionKey, reason: string, imposedAt: nat)

  datatype AttemptState = BackingOff | AttemptFailed

  datatype ReconnectAttempt = ReconnectAttempt(
    key: SessionKey, state: AttemptState, reason: string, attemptCount: nat,
    lastAttempt: nat, nextAttempt: nat, maxAttempts: nat)

  datatype ListenerState = ListenerActive | ListenerFailed | ListenerSuppressed

  datatype ListenerSnapshot = ListenerSnapshot(
    listenerId: string, protocol: ProtocolId, advertise: bool, state: ListenerState,
    stateReason: Option<string>, startedAt: nat)

  datatype RuntimeEvent = RuntimeEvent(
    eventType: string, subjectKind: string, subjectId: string, emittedAt: nat)

  datatype TransportError = NoRoute | PolicyDenied(reason: string) | InvalidRoute | RelayRejected

  datatype RelayServer = RelayServer(node: RelayNode, table: Sessions)

  datatype World = World(
    sessions: map<SessionId, SessionSnapshot>, terminal: seq<SessionSnapshot>,
    listeners: map<string, ListenerSnapshot>, events: seq<RuntimeEvent>,
    suppressions: seq<ReconnectSuppression>, attempts: seq<ReconnectAttempt>,
    relays: Relays, down: set<Endpoint>)

  datatype Config = Config(
    runtimeInstanceId: string, networkId: Option<string>, localIdentity: Option<PeerId>,
    supportsDatagrams: bool, supportsPathMigration: bool, hash: string -> SessionId)

  datatype Inputs = Inputs(attemptId: SessionId, relaySessionId: SessionId, proofValid: bool, now: nat)

  const MAX_TERMINAL_SESSIONS := 32
  const MAX_EVENTS := 256

  function KeyOf(session: SessionSnapshot): SessionKey {
    SessionKey(session.peer, session.protocol, session.class_)
  }

  function RouteKey(route: RoutePlan): SessionKey {
    SessionKey(route.peer, route.protocol, route.class_)
  }

  /** A listing of the live sessions: each of them once, as it is now. */
  ghost predicate Lists(order: seq<SessionSnapshot>, sessions: map<SessionId, SessionSnapshot>) {
    && (forall i :: 0 <= i < |order| ==> order[i].sessionId in sessions && sessions[order[i].sessionId] == order[i])
    && (forall i, j :: 0 <= i < j < |order| ==> order[i].sessionId != order[j].sessionId)
    && (forall id :: id in sessions ==> exists i :: 0 <= i < |order| && order[i].sessionId == id)
  }

  // ---------------------------------------------------------------- bounded buffers

  function PushEvent(events: seq<RuntimeEvent>, event: RuntimeEvent): seq<RuntimeEvent> {
    LastN(events + [event], MAX_EVENTS)
  }

  function PushTerminal(terminal: seq<SessionSnapshot>, session: SessionSnapshot): seq<SessionSnapshot> {
    LastN(Filter(terminal, (e: SessionSnapshot) => e.sessionId != session.sessionId) + [session],
          MAX_TERMINAL_SESSIONS)
  }

  function Emit(w: World, eventType: string, kind: string, id: string, now: nat): World {
    w.(events := PushEvent(w.events, RuntimeEvent(eventType, kind, id, now)))
  }

  // ---------------------------------------------------------------- session ids

  function ClassText(class_: TrafficClass): string {
    match class_
    case Control => "control"
    case Interactive => "interactive"
    case Bulk => "bulk"
    case Background => "background"
  }

  /** The bytes that are hashed into a logical session id, with no separators between the parts. */
  function SessionIdBytes(instance: string, localPeer: PeerId, key: SessionKey): string {
    instance + localPeer + key.peer + ClassText(key.class_)
    + (match key.protocol case None => "" case Some(protocol) => protocol)
  }

  function LogicalSessionId(cfg: Config, route: RoutePlan): SessionId {
    cfg.hash(SessionIdBytes(cfg.runtimeInstanceId, route.localPeer, RouteKey(route)))
  }

  // ---------------------------------------------------------------- relay calls

  type Relays = map<Endpoint, RelayServer>

  function OpenAt(relays: Relays, down: set<Endpoint>, endpoint: Endpoint, request: RelayOpenRequest,
                  freshId: SessionId): (Relays, Result<RelaySessionAccepted, TransportError>)
  {
    if endpoint !in relays || endpoint in down then (relays, Err(RelayRejected))
    else
      var server := relays[endpoint];
      var (table, outcome) := OpenSession(server.node, server.table, request, freshId);
      match outcome
      case Err(_) => (relays, Err(RelayRejected))
      case Ok(accepted) => (relays[endpoint := server.(table := table)], Ok(accepted))
  }

  function CloseAt(relays: Relays, down: set<Endpoint>, endpoint: Option<Endpoint>, id: SessionId)
    : (Relays, Result<(), TransportError>)
  {
    match endpoint
    case None => (relays, Err(InvalidRoute))
    case Some(e) =>
      if e !in relays || e in down then (relays, Err(RelayRejected))
      else
        var server := relays[e];
        var (table, outcome) := CloseSession(server.table, id);
        if outcome.Err? then (relays, Err(RelayRejected))
        else (relays[e := server.(table := table)], Ok(()))
  }

  function RelayOpen(w: World, endpoint: Endpoint, request: RelayOpenRequest, freshId: SessionId)
    : (World, Result<RelaySessionAccepted, TransportError>)
  {
    var (relays, outcome) := OpenAt(w.relays, w.down, endpoint, request, freshId);
    (w.(relays := relays), outcome)
  }

  function RelayClose(w: World, endpoint: Option<Endpoint>, id: SessionId): (World, Result<(), TransportError>) {
    var (relays, outcome) := CloseAt(w.relays, w.down, endpoint, id);
    (w.(relays := relays), outcome)
  }

  // ---------------------------------------------------------------- sessions for routes

  predicate OwnsRoute(cfg: Config, route: RoutePlan) {
    cfg.localIdentity == Some(route.localPeer)
  }

  function DirectSnapshot(cfg: Config, route: RoutePlan, now: nat): Result<SessionSnapshot, TransportError> {
    if !OwnsRoute(cfg, route) then Err(InvalidRoute)
    else if route.remoteEndpoints == [] then Err(NoRoute)
    else
      var id := LogicalSessionId(cfg, route);
      Ok(SessionSnapshot(
        id, id, None, route.peer, route.protocol, route.class_, route.pathKind, route.source,
        route.remoteEndpoints[0], None, None, None, cfg.supportsDatagrams, cfg.supportsPathMigration,
        Active, None, None, now, now))
  }

  function RequestFor(route: RoutePlan, inputs: Inputs): RelayOpenRequest {
    RelayOpenRequest(inputs.attemptId, route.localPeer, route.peer, route.protocol, route.class_,
                     inputs.proofValid)
  }

  /** Where a relayed session says its peer is: the plan's destination, the route's, or the peer's name. */
  function RelayedEndpoint(route: RoutePlan, plan: RelayPlan): string {
    if plan.destinationEndpoints != [] then plan.destinationEndpoints[0]
    else if route.remoteEndpoints != [] then route.remoteEndpoints[0]
    else route.peer
  }

  function RelayedSession(cfg: Config, route: RoutePlan, plan: RelayPlan, accepted: RelaySessionAccepted,
                          now: nat): SessionSnapshot
    requires plan.relayEndpoints != []
  {
    SessionSnapshot(
      LogicalSessionId(cfg, route), accepted.sessionId, Some(accepted.attemptId), route.peer,
      route.protocol, route.class_, route.pathKind, route.source, RelayedEndpoint(route, plan),
      Some(plan.relayPeer), Some(plan.relayEndpoints[0]), Some(plan.relayControlEndpoint),
      cfg.supportsDatagrams && plan.supportsDatagrams,
      cfg.supportsPathMigration && plan.supportsPathMigration,
      Active, None, None, now, now)
  }

  function RelaySnapshot(cfg: Config, w: World, route: RoutePlan, plan: RelayPlan, inputs: Inputs)
    : (World, Result<SessionSnapshot, TransportError>)
  {
    if cfg.networkId.None? || !OwnsRoute(cfg, route) || plan.relayEndpoints == [] then
      (w, Err(InvalidRoute))
    else
      var (dialed, outcome) :=
        RelayOpen(w, plan.relayControlEndpoint, RequestFor(route, inputs), inputs.relaySessionId);
      match outcome
      case Err(error) => (dialed, Err(error))
      case Ok(accepted) => (dialed, Ok(RelayedSession(cfg, route, plan, accepted, inputs.now)))
  }

  function SnapshotForRoute(cfg: Config, w: World, route: RoutePlan, inputs: Inputs)
    : (World, Result<SessionSnapshot, TransportError>)
  {
    match route.relay
    case Some(plan) => RelaySnapshot(cfg, w, route, plan, inputs)
    case None => (w, DirectSnapshot(cfg, route, inputs.now))
  }

  // ---------------------------------------------------------------- the session registry

  /** Whether replacing `previous` by `next` gives up a relay session. */
  predicate ReleasesRelay(previous: SessionSnapshot, next: SessionSnapshot) {
    && previous.pathKind == Relay
    && (|| previous.transportSessionId != next.transportSessionId
        || previous.relayControlEndpoint != next.relayControlEndpoint
        || next.pathKind != Relay)
  }

  function Upsert(w: World, session: SessionSnapshot, now: nat): (World, Result<(), TransportError>) {
    var id := session.sessionId;
    var inserted := w.(sessions := w.sessions[id := session]);
    if id in w.sessions then
      var previous := w.sessions[id];
      var (released, outcome) :=
        if ReleasesRelay(previous, session) then
          RelayClose(inserted, previous.relayControlEndpoint, previous.transportSessionId)
        else (inserted, Ok(()));
      if outcome.Err? then (released, outcome)
      else (Emit(released, "session.state_changed", "session", id, now), Ok(()))
    else
      (Emit(Emit(inserted, "session.created", "session", id, now), "path.selected", "session", id, now),
       Ok(()))
  }

  function Connect(cfg: Config, w: World, route: RoutePlan, inputs: Inputs)
    : (World, Result<SessionSnapshot, TransportError>)
  {
    match FindSuppression(w.suppressions, RouteKey(route))
    case Some(suppression) =>
      (Emit(w, "reconnect.suppressed", "peer", route.peer, inputs.now),
       Err(PolicyDenied("reconnect suppressed: " + suppression.reason)))
    case None =>
      var (dialed, outcome) := SnapshotForRoute(cfg, w, route, inputs);
      match outcome
      case Err(error) => (dialed, Err(error))
      case Ok(session) =>
        var (stored, done) := Upsert(dialed, session, inputs.now);
        (stored, if done.Err? then Err(done.error) else Ok(session))
  }

  function StateEvent(state: RuntimeSessionState): string {
    match state
    case Closing => "session.closing"
    case Failed => "session.failed"
    case _ => "session.state_changed"
  }

  function UpdateSessionState(
    w: World, id: SessionId, state: RuntimeSessionState, closureReason: Option<SessionClosureReason>,
    stateReason: Option<string>, now: nat
  ): World {
    if id !in w.sessions then w
    else
      var session := w.sessions[id].(state := state, closureReason := closureReason,
                                     stateReason := stateReason, lastActivity := now);
      Emit(w.(sessions := w.sessions[id := session]), StateEvent(state), "session", id, now)
  }

  /** The migrated session keeps the registry id and the creation time of the one it replaces. */
  function Migrate(cfg: Config, w: World, id: SessionId, route: RoutePlan, inputs: Inputs)
    : (World, Result<SessionSnapshot, TransportError>)
  {
    var marked := UpdateSessionState(w, id, Migrating, None, Some("daemon requested path migration"), inputs.now);
    if id !in marked.sessions then (marked, Err(InvalidRoute))
    else
      var existing := marked.sessions[id];
      var (dialed, outcome) := SnapshotForRoute(cfg, marked, route, inputs);
      match outcome
      case Err(error) => (dialed, Err(error))
      case Ok(session) =>
        var migrated := session.(sessionId := existing.sessionId, createdAt := existing.createdAt,
                                 lastActivity := inputs.now);
        var (released, closed) :=
          if ReleasesRelay(existing, migrated) then
            RelayClose(dialed, existing.relayControlEndpoint, existing.transportSessionId)
          else (dialed, Ok(()));
        if closed.Err? then (released, Err(closed.error))
        else
          var (stored, done) := Upsert(released, migrated, inputs.now);
          if done.Err? then (stored, Err(done.error))
          else (Emit(stored, "path.migration_completed", "session", migrated.sessionId, inputs.now), Ok(migrated))
  }

  function OrElse<T>(first: Option<T>, second: Option<T>): Option<T> {
    if first.Some? then first else second
  }

  function CloseRuntimeSession(w: World, session: SessionSnapshot, now: nat): (World, Result<(), TransportError>) {
    var id := session.sessionId;
    if id !in w.sessions then (w, Ok(()))
    else
      var existing := w.sessions[id];
      var closing := UpdateSessionState(w, id, Closing, OrElse(existing.closureReason, session.closureReason),
                                        OrElse(existing.stateReason, session.stateReason), now);
      var active := closing.sessions[id];
      var removed := closing.(sessions := closing.sessions - {id});
      var (released, outcome) :=
        if active.pathKind == Relay then
          RelayClose(removed, active.relayControlEndpoint, active.transportSessionId)
        else (removed, Ok(()));
      if outcome.Err? then (released, outcome)
      else
        var final := active.(state := Closed_, lastActivity := now);
        (Emit(released.(terminal := PushTerminal(released.terminal, final)),
              "session.closed", "session", active.sessionId, now),
         Ok(()))
  }

  // ---------------------------------------------------------------- suppressions

  function FindSuppression(suppressions: seq<ReconnectSuppression>, key: SessionKey): Option<ReconnectSuppression> {
    if suppressions == [] then None
    else if suppressions[0].key == key then Some(suppressions[0])
    else FindSuppression(suppressions[1..], key)
  }

  /** Rewrites the first entry with this key, or appends one. */
  function PutSuppression(suppressions: seq<ReconnectSuppression>, entry: ReconnectSuppression)
    : seq<ReconnectSuppression>
  {
    PutWhere(suppressions, entry, (e: ReconnectSuppression) => e.key == entry.key)
  }

  function DropSuppression(suppressions: seq<ReconnectSuppression>, key: SessionKey): seq<ReconnectSuppression> {
    Filter(suppressions, (e: ReconnectSuppression) => e.key != key)
  }

  function SuppressReconnect(w: World, key: SessionKey, reason: string, now: nat): World {
    Emit(w.(suppressions := PutSuppression(w.suppressions, ReconnectSuppression(key, reason, now))),
         "reconnect.suppressed", "peer", key.peer, now)
  }

  function ClearSuppression(w: World, key: SessionKey, now: nat): World {
    var cleared := w.(suppressions := DropSuppression(w.suppressions, key));
    if FindSuppression(w.suppressions, key).Some? then
      Emit(cleared, "reconnect.unsuppressed", "peer", key.peer, now)
    else cleared
  }

  // ---------------------------------------------------------------- reconnect attempts

  function FindAttempt(attempts: seq<ReconnectAttempt>, key: SessionKey): Option<ReconnectAttempt> {
    if attempts == [] then None
    else if attempts[0].key == key then Some(attempts[0])
    else FindAttempt(attempts[1..], key)
  }

  function PutAttempt(attempts: seq<ReconnectAttempt>, attempt: ReconnectAttempt): seq<ReconnectAttempt> {
    PutWhere(attempts, attempt, (e: ReconnectAttempt) => e.key == attempt.key)
  }

  function DropAttempt(attempts: seq<ReconnectAttempt>, key: SessionKey): seq<ReconnectAttempt> {
    Filter(attempts, (e: ReconnectAttempt) => e.key != key)
  }

  function Pow2(n: nat): nat {
    if n == 0 then 1 else 2 * Pow2(n - 1)
  }

  /** The wait after the `count`-th failure: doubling from the base, at most `maxBackoff`. */
  function Backoff(count: nat, base: nat, maxBackoff: nat): nat
    requires count >= 1
  {
    Min(SaturatingMul(base, Pow2(Min(count - 1, 16))), maxBackoff)
  }

  function NextAttempt(previous: Option<ReconnectAttempt>, key: SessionKey, reason: string, maxAttempts: nat,
                       base: nat, maxBackoff: nat, now: nat): ReconnectAttempt
  {
    match previous
    case Some(existing) =>
      var count := existing.attemptCount + 1;
      ReconnectAttempt(key, if count >= maxAttempts then AttemptFailed else BackingOff, reason, count, now,
                       SaturatingAdd(now, Backoff(count, base, maxBackoff)), maxAttempts)
    case None =>
      ReconnectAttempt(key, if maxAttempts <= 1 then AttemptFailed else BackingOff, reason, 1, now,
                       SaturatingAdd(now, Min(base, maxBackoff)), maxAttempts)
  }

  function ScheduleReconnect(w: World, key: SessionKey, reason: string, maxAttempts: nat, base: nat,
                             maxBackoff: nat, now: nat): (World, ReconnectAttempt)
  {
    var attempt := NextAttempt(FindAttempt(w.attempts, key), key, reason, maxAttempts, base, maxBackoff, now);
    var stored := w.(attempts := PutAttempt(w.attempts, attempt));
    if attempt.state == AttemptFailed then
      (Emit(Emit(stored, "reconnect.failed", "peer", key.peer, now), "path.failed", "peer", key.peer, now), attempt)
    else
      (Emit(stored, "reconnect.retry_scheduled", "peer", key.peer, now), attempt)
  }

  function ClearedEvent(outcome: string): string {
    if Contains(outcome, "succeeded") || Contains(outcome, "active") then "reconnect.succeeded"
    else "reconnect.cleared"
  }

  function ClearReconnectAttempt(w: World, key: SessionKey, outcome: string, now: nat): World {
    var cleared := w.(attempts := DropAttempt(w.attempts, key));
    if FindAttempt(w.attempts, key).Some? then Emit(cleared, ClearedEvent(outcome), "peer", key.peer, now)
    else cleared
  }

  // ---------------------------------------------------------------- listeners and events

  function Listen(w: World, listenerId: string, protocol: ProtocolId, advertise: bool, now: nat): World {
    w.(listeners := w.listeners[listenerId :=
        ListenerSnapshot(listenerId, protocol, advertise, ListenerActive, None, now)])
  }

  function UpdateListener(w: World, id: string, state: ListenerState, reason: Option<string>): World {
    if id !in w.listeners then w
    else w.(listeners := w.listeners[id := w.listeners[id].(state := state, stateReason := reason)])
  }

  /** The newest events in the order they happened, at least one when there is one. */
  function RecentEvents(events: seq<RuntimeEvent>, limit: nat): seq<RuntimeEvent> {
    LastN(events, if limit >= 1 then limit else 1)
  }
}
