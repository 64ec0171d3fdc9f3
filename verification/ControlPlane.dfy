/**
 The two loops of the control plane (crates/fabric) as folds over the listed sessions: reconcile moves
 sessions to the selected path, reevaluate enforces policy on sessions and listeners.
 */
module ControlPlane {
  import opened Model
  import opened Policy
  import opened Transport
  import D = DurableState

  /** One reading of the clock and fresh ids for each session in turn. */
  type InputStream = nat -> Inputs

  function FirstOf(s: seq<string>): Option<string> {
    if s == [] then None else Some(s[0])
  }

  predicate SessionMatchesRoute(session: SessionSnapshot, route: RoutePlan) {
    && session.pathKind == route.pathKind && session.class_ == route.class_
    && session.protocol == route.protocol
    && route.remoteEndpoints != [] && session.remoteEndpoint == route.remoteEndpoints[0]
    && (match route.relay
        case None => session.relayPeer.None?
        case Some(plan) =>
          && session.relayControlEndpoint == Some(plan.relayControlEndpoint)
          && session.relayPeer == Some(plan.relayPeer)
          && session.relayEndpoint == FirstOf(plan.relayEndpoints))
  }

  function ErrorText(error: TransportError): string {
    match error
    case NoRoute => "no route is available for peer"
    case PolicyDenied(reason) => "policy denied transport request: " + reason
    case InvalidRoute => "route plan is invalid"
    case RelayRejected => "relay rejected session open"
  }

  function FailAndClose(w: World, session: SessionSnapshot, closureReason: SessionClosureReason,
                        stateReason: string, now: nat): (World, Result<(), D.DaemonError>)
  {
    var failed := UpdateSessionState(w, session.sessionId, Failed, Some(closureReason), Some(stateReason), now);
    var (closed, outcome) :=
      CloseRuntimeSession(Emit(failed, "path.failed", "session", session.sessionId, now), session, now);
    (closed, if outcome.Err? then Err(D.TransportFailed(outcome.error)) else Ok(()))
  }

  // ---------------------------------------------------------------- dialing

  /** Opens a session to the peer on the best path, if policy allows the protocol. */
  function RealizeBestPath(cfg: Config, d: D.DaemonState, w: World, peer: PeerId, protocol: ProtocolId,
                           class_: TrafficClass, inputs: Inputs): (World, Result<SessionSnapshot, D.DaemonError>)
  {
    var policy := D.ExplainPolicy(d, peer, protocol);
    if !policy.allowed then (w, Err(D.PolicyRejects(policy.reason)))
    else
      match D.PlanRoute(d, peer, Some(protocol), class_)
      case Err(error) => (w, Err(error))
      case Ok(route) =>
        var (dialed, outcome) := Connect(cfg, w, route, inputs);
        (dialed, if outcome.Err? then Err(D.TransportFailed(outcome.error)) else Ok(outcome.value))
  }

  // ---------------------------------------------------------------- reconcile

  datatype Disposition = Unchanged | Upgraded | ClosedNow

  datatype ReconcileEntry = ReconcileEntry(
    sessionId: SessionId, peer: PeerId, disposition: Disposition, pathKind: Option<PathKind>)

  datatype ReconcileReport = ReconcileReport(
    examined: nat, untouched: nat, upgraded: nat, closed: nat, entries: seq<ReconcileEntry>)

  function ClosedEntry(session: SessionSnapshot): ReconcileEntry {
    ReconcileEntry(session.sessionId, session.peer, ClosedNow, None)
  }

  function EntryAfterClose(session: SessionSnapshot, outcome: (World, Result<(), D.DaemonError>))
    : (World, Result<ReconcileEntry, D.DaemonError>)
  {
    (outcome.0, if outcome.1.Err? then Err(outcome.1.error) else Ok(ClosedEntry(session)))
  }

  /** Whether policy and routing want the session kept, moved or closed. */
  datatype Verdict =
    | NoProtocol | Denied(reason: string) | NoPath | Broken(error: D.DaemonError)
    | Settled | Misplaced(route: RoutePlan)

  function Judge(d: D.DaemonState, session: SessionSnapshot): Verdict {
    match session.protocol
    case None => NoProtocol
    case Some(protocol) =>
      var policy := D.ExplainPolicy(d, session.peer, protocol);
      if !policy.allowed then Denied(policy.reason)
      else
        match D.PlanRoute(d, session.peer, Some(protocol), session.class_)
        case Err(NoRouteTo(_)) => NoPath
        case Err(error) => Broken(error)
        case Ok(route) => if SessionMatchesRoute(session, route) then Settled else Misplaced(route)
  }

  function MoveSession(cfg: Config, w: World, session: SessionSnapshot, route: RoutePlan, inputs: Inputs)
    : (World, Result<ReconcileEntry, D.DaemonError>)
  {
    var id := session.sessionId;
    var marked := UpdateSessionState(w, id, Migrating, None, Some("selected path changed; session migrating"), inputs.now);
    var (moved, outcome) := Migrate(cfg, marked, id, route, inputs);
    match outcome
    case Ok(_) => (moved, Ok(ReconcileEntry(id, session.peer, Upgraded, Some(route.pathKind))))
    case Err(error) =>
      EntryAfterClose(session, FailAndClose(moved, session, LocalRuntimeFailure,
                                            "session migration failed: " + ErrorText(error), inputs.now))
  }

  function ReconcileOne(cfg: Config, d: D.DaemonState, w: World, listed: SessionSnapshot, inputs: Inputs)
    : (World, Result<ReconcileEntry, D.DaemonError>)
  {
    var id, now := listed.sessionId, inputs.now;
    var marked := UpdateSessionState(w, id, Reconciling, None, Some("daemon reconcile cycle"), now);
    if id !in marked.sessions then (marked, Ok(ClosedEntry(listed)))
    else
      var session := marked.sessions[id];
      match Judge(d, session)
      case NoProtocol =>
        EntryAfterClose(session, FailAndClose(marked, session, LocalRuntimeFailure,
                                              "session is missing negotiated protocol", now))
      case Denied(reason) =>
        var closing := UpdateSessionState(marked, id, Closing, Some(PolicyRejected), Some(reason), now);
        var (closed, outcome) := CloseRuntimeSession(closing, session, now);
        (closed, if outcome.Err? then Err(D.TransportFailed(outcome.error)) else Ok(ClosedEntry(session)))
      case NoPath =>
        EntryAfterClose(session, FailAndClose(marked, session, PathExhaustion,
                                              "no route is available for session", now))
      case Broken(error) => (marked, Err(error))
      case Settled =>
        (UpdateSessionState(marked, id, Active, None, Some("selected path still matches active session"), now),
         Ok(ReconcileEntry(id, session.peer, Unchanged, Some(session.pathKind))))
      case Misplaced(route) => MoveSession(cfg, marked, session, route, inputs)
  }

  /** Reconciles the listed sessions from position `i` on, stopping at the first error. */
  function ReconcileFrom(cfg: Config, d: D.DaemonState, w: World, order: seq<SessionSnapshot>, inputs: InputStream,
                         i: nat, entries: seq<ReconcileEntry>): (World, Result<seq<ReconcileEntry>, D.DaemonError>)
    decreases |order| - i
  {
    if i >= |order| then (w, Ok(entries))
    else
      var (next, outcome) := ReconcileOne(cfg, d, w, order[i], inputs(i));
      match outcome
      case Err(error) => (next, Err(error))
      case Ok(entry) => ReconcileFrom(cfg, d, next, order, inputs, i + 1, entries + [entry])
  }

  function CountOf(entries: seq<ReconcileEntry>, disposition: Disposition): nat {
    |Filter(entries, (e: ReconcileEntry) => e.disposition == disposition)|
  }

  function ReportOf(entries: seq<ReconcileEntry>): ReconcileReport {
    ReconcileReport(|entries|, CountOf(entries, Unchanged), CountOf(entries, Upgraded), CountOf(entries, ClosedNow),
                    entries)
  }

  // ---------------------------------------------------------------- reevaluate: sessions

  datatype PolicyCause = SubjectMismatchCause | LocalMembershipDenied | PeerMembershipDenied | CapabilityDenied

  datatype Reevaluation =
    | Skipped
    | PolicyClosed(cause: PolicyCause, suppressionAdded: bool)
    | Kept(suppressionCleared: bool)
    | Restyled(suppressionCleared: bool)
    | Migrated_(suppressionCleared: bool)
    | MigrationFailed(suppressionCleared: bool)

  datatype SessionTally = SessionTally(
    reevaluated: nat, closed: nat, degraded: nat, migrated: nat, untouched: nat,
    suppressionsAdded: nat, suppressionsCleared: nat, subjectMismatch: nat, localDenied: nat, peerDenied: nat,
    capabilityDenied: nat)

  const NO_TALLY := SessionTally(0, 0, 0, 0, 0, 0, 0, 0, 0, 0, 0)

  function One(b: bool): nat {
    if b then 1 else 0
  }

  function AddTo(t: SessionTally, r: Reevaluation): SessionTally {
    match r
    case Skipped => t
    case PolicyClosed(cause, added) =>
      t.(reevaluated := t.reevaluated + 1, closed := t.closed + 1,
         suppressionsAdded := t.suppressionsAdded + One(added),
         subjectMismatch := t.subjectMismatch + One(cause == SubjectMismatchCause),
         localDenied := t.localDenied + One(cause == LocalMembershipDenied),
         peerDenied := t.peerDenied + One(cause == PeerMembershipDenied),
         capabilityDenied := t.capabilityDenied + One(cause == CapabilityDenied))
    case Kept(cleared) =>
      t.(reevaluated := t.reevaluated + 1, untouched := t.untouched + 1,
         suppressionsCleared := t.suppressionsCleared + One(cleared))
    case Restyled(cleared) =>
      t.(reevaluated := t.reevaluated + 1, degraded := t.degraded + 1,
         suppressionsCleared := t.suppressionsCleared + One(cleared))
    case Migrated_(cleared) =>
      t.(reevaluated := t.reevaluated + 1, migrated := t.migrated + 1,
         suppressionsCleared := t.suppressionsCleared + One(cleared))
    case MigrationFailed(cleared) =>
      t.(reevaluated := t.reevaluated + 1, closed := t.closed + 1,
         suppressionsCleared := t.suppressionsCleared + One(cleared))
  }

  /** Why nothing may run under this runtime identity, if so. */
  function LocalReason(d: D.DaemonState, runtimePeer: PeerId): Option<string> {
    if d.membership.subject != runtimePeer then
      Some("authority subject " + d.membership.subject + " does not match runtime identity " + runtimePeer)
    else D.DenyReason(d, d.localPeer)
  }

  function RemoteCause(d: D.DaemonState, peer: PeerId, reason: string): PolicyCause {
    if D.DenyReason(d, peer).Some? || Contains(reason, "revoked") || Contains(reason, "denied") then
      PeerMembershipDenied
    else CapabilityDenied
  }

  /** The cause and the reason for closing a session, or nothing when it may live. */
  function Enforcement(d: D.DaemonState, runtimePeer: PeerId, peer: PeerId, protocol: ProtocolId)
    : Option<(PolicyCause, string)>
  {
    var policy := D.ExplainPolicy(d, peer, protocol);
    match LocalReason(d, runtimePeer)
    case Some(reason) =>
      Some((if d.membership.subject != runtimePeer then SubjectMismatchCause else LocalMembershipDenied, reason))
    case None => if policy.allowed then None else Some((RemoteCause(d, peer, policy.reason), policy.reason))
  }

  function EnforceOn(w: World, session: SessionSnapshot, cause: PolicyCause, reason: string, now: nat)
    : (World, Result<Reevaluation, D.DaemonError>)
  {
    var key := KeyOf(session);
    var present := FindSuppression(w.suppressions, key).Some?;
    var suppressed := SuppressReconnect(w, key, reason, now);
    var closing := UpdateSessionState(suppressed, session.sessionId, Closing, Some(PolicyRejected), Some(reason), now);
    var noted := Emit(closing, "authority.policy_enforced", "session", session.sessionId, now);
    var (closed, outcome) := CloseRuntimeSession(noted, session, now);
    (closed, if outcome.Err? then Err(D.TransportFailed(outcome.error)) else Ok(PolicyClosed(cause, !present)))
  }

  const CANNOT_MIGRATE := "authority reevaluation selected a different eligible path but the active session cannot migrate"
  const NO_REPLACEMENT := "authority reevaluation found no eligible replacement path; keeping the current session alive in degraded posture"
  const BETTER_PATH := "authority reevaluation selected a different eligible path"

  function DegradeSession(w: World, session: SessionSnapshot, reason: string, now: nat): World {
    Emit(UpdateSessionState(w, session.sessionId, Degraded, None, Some(reason), now),
         "path.degraded", "session", session.sessionId, now)
  }

  function Rehome(cfg: Config, w: World, session: SessionSnapshot, route: RoutePlan, cleared: bool, inputs: Inputs)
    : (World, Result<Reevaluation, D.DaemonError>)
  {
    var id, now := session.sessionId, inputs.now;
    var started := Emit(w, "path.migration_started", "session", id, now);
    var marked := UpdateSessionState(started, id, Migrating, None, Some(BETTER_PATH), now);
    var (moved, outcome) := Migrate(cfg, marked, id, route, inputs);
    match outcome
    case Ok(_) => (moved, Ok(Migrated_(cleared)))
    case Err(error) =>
      var reason := "authority reevaluation migration failed: " + ErrorText(error);
      var (closed, done) := FailAndClose(moved, session, LocalRuntimeFailure, reason, now);
      if done.Err? then (closed, Err(done.error))
      else (SuppressReconnect(closed, KeyOf(session), reason, now), Ok(MigrationFailed(cleared)))
  }

  /** A session that policy allows: its suppression is cleared and its path is looked at again. */
  function KeepOrMove(cfg: Config, d: D.DaemonState, w: World, session: SessionSnapshot, inputs: Inputs)
    : (World, Result<Reevaluation, D.DaemonError>)
  {
    var id, now := session.sessionId, inputs.now;
    var cleared := FindSuppression(w.suppressions, KeyOf(session)).Some?;
    var w1 := ClearSuppression(w, KeyOf(session), now);
    match D.PlanRoute(d, session.peer, session.protocol, session.class_)
    case Ok(route) =>
      if SessionMatchesRoute(session, route) then
        (if session.state == Degraded then
           UpdateSessionState(w1, id, Active, None,
                              Some("authority reevaluation restored the selected path posture"), now)
         else w1,
         Ok(Kept(cleared)))
      else if session.migrationCapable then Rehome(cfg, w1, session, route, cleared, inputs)
      else (DegradeSession(w1, session, CANNOT_MIGRATE, now), Ok(Restyled(cleared)))
    case Err(NoRouteTo(_)) => (DegradeSession(w1, session, NO_REPLACEMENT, now), Ok(Restyled(cleared)))
    case Err(error) => (w1, Err(error))
  }

  function ReevaluateOne(cfg: Config, d: D.DaemonState, runtimePeer: PeerId, w: World, session: SessionSnapshot,
                         inputs: Inputs): (World, Result<Reevaluation, D.DaemonError>)
  {
    match session.protocol
    case None => (w, Ok(Skipped))
    case Some(protocol) =>
      match Enforcement(d, runtimePeer, session.peer, protocol)
      case Some((cause, reason)) => EnforceOn(w, session, cause, reason, inputs.now)
      case None => KeepOrMove(cfg, d, w, session, inputs)
  }

  function ReevaluateFrom(cfg: Config, d: D.DaemonState, runtimePeer: PeerId, w: World, order: seq<SessionSnapshot>,
                          inputs: InputStream, i: nat, tally: SessionTally)
    : (World, Result<SessionTally, D.DaemonError>)
    decreases |order| - i
  {
    if i >= |order| then (w, Ok(tally))
    else
      var (next, outcome) := ReevaluateOne(cfg, d, runtimePeer, w, order[i], inputs(i));
      match outcome
      case Err(error) => (next, Err(error))
      case Ok(r) => ReevaluateFrom(cfg, d, runtimePeer, next, order, inputs, i + 1, AddTo(tally, r))
  }

  // ---------------------------------------------------------------- reevaluate: listeners

  function EnforcedReason(d: D.DaemonState, localReason: Option<string>, protocol: ProtocolId): Option<string> {
    if localReason.Some? then localReason
    else
      var decision := D.ExplainLocalPolicy(d, protocol);
      if decision.allowed then None else Some(decision.reason)
  }

  /** A listener under the given local reason; failed listeners are left alone. */
  function Judged(d: D.DaemonState, localReason: Option<string>, l: ListenerSnapshot): ListenerSnapshot {
    if l.state == ListenerFailed then l
    else
      match EnforcedReason(d, localReason, l.protocol)
      case Some(reason) => l.(state := ListenerSuppressed, stateReason := Some(reason))
      case None => if l.state == ListenerSuppressed then l.(state := ListenerActive, stateReason := None) else l
  }

  datatype ListenerTally = ListenerTally(reevaluated: nat, suppressed: nat, restored: nat)

  predicate AlreadySuppressed(l: ListenerSnapshot, reason: string) {
    l.state == ListenerSuppressed && l.stateReason == Some(reason)
  }

  function ListenerOne(d: D.DaemonState, localReason: Option<string>, w: World, id: string, now: nat, t: ListenerTally)
    : (World, ListenerTally)
    requires id in w.listeners
  {
    var l := w.listeners[id];
    var seen := t.(reevaluated := t.reevaluated + 1);
    if l.state == ListenerFailed then (w, seen)
    else
      match EnforcedReason(d, localReason, l.protocol)
      case Some(reason) =>
        var updated := UpdateListener(w, id, ListenerSuppressed, Some(reason));
        if AlreadySuppressed(l, reason) then (updated, seen)
        else (Emit(updated, "authority.policy_enforced", "listener", id, now), seen.(suppressed := seen.suppressed + 1))
      case None =>
        if l.state == ListenerSuppressed then
          (UpdateListener(w, id, ListenerActive, None), seen.(restored := seen.restored + 1))
        else (w, seen)
  }

  function ListenersFrom(d: D.DaemonState, localReason: Option<string>, w: World, order: seq<string>, now: nat, i: nat,
                         t: ListenerTally): (World, ListenerTally)
    requires forall k :: 0 <= k < |order| ==> order[k] in w.listeners
    decreases |order| - i
  {
    if i >= |order| then (w, t)
    else
      var (next, tally) := ListenerOne(d, localReason, w, order[i], now, t);
      ListenersFrom(d, localReason, next, order, now, i + 1, tally)
  }

  /** What the listener view shows: each stored listener as policy would have it now. */
  function RuntimeListeners(d: D.DaemonState, w: World): map<string, ListenerSnapshot> {
    map id | id in w.listeners :: Judged(d, LocalReason(d, d.localPeer), w.listeners[id])
  }

  // ---------------------------------------------------------------- the whole reevaluation

  datatype ReevaluationReport = ReevaluationReport(
    sessions: SessionTally, listeners: ListenerTally, localPolicyDenied: bool, subjectMismatch: bool,
    localReason: Option<string>)

  function ReevaluateSessions(cfg: Config, d: D.DaemonState, runtimePeer: PeerId, w: World,
                              order: seq<SessionSnapshot>, inputs: InputStream, now: nat)
    : (World, Result<SessionTally, D.DaemonError>)
  {
    ReevaluateFrom(cfg, d, runtimePeer, Emit(w, "authority.reevaluation_started", "authority", runtimePeer, now),
                   order, inputs, 0, NO_TALLY)
  }

  function ReportOfReevaluation(d: D.DaemonState, runtimePeer: PeerId, sessions: SessionTally, listeners: ListenerTally)
    : ReevaluationReport
  {
    ReevaluationReport(sessions, listeners, LocalReason(d, runtimePeer).Some?, d.membership.subject != runtimePeer,
                       LocalReason(d, runtimePeer))
  }
}
