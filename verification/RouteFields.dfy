/**
 What the two control-plane loops leave behind, compared field by field with the routes that are planned:
 path, endpoint and relay of every session, its state, and the word the report has for it.
 */
module RouteFields {
  import opened Model
  import opened Transport
  import opened RelayLeases
  import opened SessionKeys
  import opened ControlPlane
  import opened ControlTraces
  import opened ControlRuns
  import opened ReconcileProofs
  import opened ReevaluationProofs
  import D = DurableState
  import P = DurableProofs

  /** The session runs on the path, at the first endpoint and through the relay of the route. */
  predicate OnRoute(session: SessionSnapshot, route: RoutePlan) {
    && route.remoteEndpoints != []
    && session.pathKind == route.pathKind
    && session.remoteEndpoint == route.remoteEndpoints[0]
    && session.peer == route.peer && session.protocol == route.protocol && session.class_ == route.class_
    && (route.relay.None? ==> session.relayPeer.None?)
    && (route.relay.Some? ==>
          && session.relayPeer == Some(route.relay.value.relayPeer)
          && session.relayControlEndpoint == Some(route.relay.value.relayControlEndpoint)
          && (route.relay.value.relayEndpoints == [] ==> session.relayEndpoint.None?)
          && (route.relay.value.relayEndpoints != [] ==>
                session.relayEndpoint == Some(route.relay.value.relayEndpoints[0])))
  }

  /** Policy allows the session: its peer has no denial, and a grant covers its protocol. */
  ghost predicate Permitted(d: D.DaemonState, session: SessionSnapshot) {
    session.protocol.Some? && (forall e :: e in d.denied ==> e.peer != session.peer) && P.Covered(d, session.protocol.value)
  }

  function Planned(d: D.DaemonState, session: SessionSnapshot): Result<RoutePlan, D.DaemonError> {
    D.PlanRoute(d, session.peer, session.protocol, session.class_)
  }

  /** Permitted, and on the route that is planned for its key. */
  ghost predicate WellPlaced(d: D.DaemonState, session: SessionSnapshot) {
    Permitted(d, session) && Planned(d, session).Ok? && OnRoute(session, Planned(d, session).value)
  }

  lemma MatchIsOnRoute(d: D.DaemonState, session: SessionSnapshot)
    requires Planned(d, session).Ok?
    ensures SessionMatchesRoute(session, Planned(d, session).value) <==> OnRoute(session, Planned(d, session).value)
  {
    PlannedRoute(d, session.peer, session.protocol, session.class_);
    hide D.PlanRoute;
  }

  lemma PermittedExactly(d: D.DaemonState, session: SessionSnapshot)
    ensures Permitted(d, session) <==>
            session.protocol.Some? && D.ExplainPolicy(d, session.peer, session.protocol.value).allowed
  {
    if session.protocol.Some? {
      P.AllowedOnFields(d, session.peer, session.protocol.value);
    }
    hide D.ExplainPolicy, P.Covered;
  }

  /** The two verdicts that matter, on fields. */
  lemma JudgedOnFields(d: D.DaemonState, session: SessionSnapshot)
    ensures Judge(d, session).Settled? <==> WellPlaced(d, session)
    ensures Judge(d, session).Misplaced? <==>
            Permitted(d, session) && Planned(d, session).Ok? && !OnRoute(session, Planned(d, session).value)
    ensures Judge(d, session).Misplaced? ==> Judge(d, session).route == Planned(d, session).value
  {
    PermittedExactly(d, session);
    if Planned(d, session).Ok? {
      MatchIsOnRoute(d, session);
    }
    hide D.PlanRoute, D.ExplainPolicy, SessionMatchesRoute, OnRoute, Permitted;
  }

  // ---------------------------------------------------------------- reconcile

  /** Where a session may be after a turn: permitted, with a route, and on it whenever the route has an endpoint. */
  ghost predicate Reconciled(d: D.DaemonState, session: SessionSnapshot) {
    && Permitted(d, session) && Planned(d, session).Ok?
    && (Planned(d, session).value.remoteEndpoints != [] ==> OnRoute(session, Planned(d, session).value))
  }

  lemma InPlaceIsReconciled(d: D.DaemonState, session: SessionSnapshot)
    ensures InPlace(d, session) <==> Reconciled(d, session)
  {
    JudgedOnFields(d, session);
    hide Judge, Permitted, D.PlanRoute;
  }

  /**
   One turn of a reconcile cycle: what is still live afterwards is permitted and on the route planned for it,
   and the entry says unchanged exactly when the listed record already was.
   */
  lemma TurnOnFields(cfg: Config, d: D.DaemonState, w: World, listed: SessionSnapshot, inputs: Inputs)
    requires AtOwnIds(w) && listed.sessionId in w.sessions && w.sessions[listed.sessionId] == listed
    requires ReconcileOne(cfg, d, w, listed, inputs).1.Ok?
    ensures var (after, outcome) := ReconcileOne(cfg, d, w, listed, inputs);
            && (listed.sessionId in after.sessions ==> Reconciled(d, after.sessions[listed.sessionId]))
            && (outcome.value.disposition == Unchanged <==> WellPlaced(d, listed))
            && outcome.value.sessionId == listed.sessionId && outcome.value.peer == listed.peer
  {
    ReconciledInPlace(cfg, d, w, listed, inputs);
    JudgedOnFields(d, listed);
    EntryNames(cfg, d, w, listed, inputs);
    hide ReconcileOne, Judge, InPlace, Reconciled, WellPlaced;
    var after := ReconcileOne(cfg, d, w, listed, inputs).0;
    if listed.sessionId in after.sessions {
      InPlaceIsReconciled(d, after.sessions[listed.sessionId]);
    }
  }

  lemma EntryNames(cfg: Config, d: D.DaemonState, w: World, listed: SessionSnapshot, inputs: Inputs)
    requires listed.sessionId in w.sessions && w.sessions[listed.sessionId] == listed
    requires ReconcileOne(cfg, d, w, listed, inputs).1.Ok?
    ensures var entry := ReconcileOne(cfg, d, w, listed, inputs).1.value;
            entry.sessionId == listed.sessionId && entry.peer == listed.peer
  {
    hide Judge, FailAndClose, CloseRuntimeSession, Migrate, PushEvent;
  }

  /** A whole successful cycle: every live session is permitted and on its route, and each entry is exact. */
  lemma CycleOnFields(cfg: Config, d: D.DaemonState, w: World, order: seq<SessionSnapshot>, inputs: InputStream)
    requires AtOwnIds(w) && Lists(order, w.sessions)
    requires ReconcileFrom(cfg, d, w, order, inputs, 0, []).1.Ok?
    ensures var (after, outcome) := ReconcileFrom(cfg, d, w, order, inputs, 0, []);
            && (forall id :: id in after.sessions ==> Reconciled(d, after.sessions[id]))
            && |outcome.value| == |order|
            && (forall k :: 0 <= k < |order| ==>
                  (outcome.value[k].disposition == Unchanged <==> WellPlaced(d, order[k])))
  {
    hide ReconcileFrom, Judge, InPlace, Reconciled, WellPlaced;
    CycleSettles(cfg, d, w, order, inputs, 0, []);
    CycleReports(cfg, d, w, order, inputs, 0, []);
    var (after, outcome) := ReconcileFrom(cfg, d, w, order, inputs, 0, []);
    forall id | id in after.sessions ensures Reconciled(d, after.sessions[id]) {
      InPlaceIsReconciled(d, after.sessions[id]);
    }
    forall k | 0 <= k < |order| ensures outcome.value[k].disposition == Unchanged <==> WellPlaced(d, order[k]) {
      JudgedOnFields(d, order[k]);
    }
  }

  /** The entry says closed exactly when the session is gone, and upgraded only for one that was off its route. */
  lemma DispositionsExactly(cfg: Config, d: D.DaemonState, w: World, listed: SessionSnapshot, inputs: Inputs)
    requires AtOwnIds(w) && listed.sessionId in w.sessions && w.sessions[listed.sessionId] == listed
    requires ReconcileOne(cfg, d, w, listed, inputs).1.Ok?
    ensures var (after, outcome) := ReconcileOne(cfg, d, w, listed, inputs);
            && (outcome.value.disposition == ClosedNow <==> listed.sessionId !in after.sessions)
            && (outcome.value.disposition == Upgraded ==>
                  Permitted(d, listed) && Planned(d, listed).Ok? && !OnRoute(listed, Planned(d, listed).value)
                  && outcome.value.pathKind == Some(Planned(d, listed).value.pathKind))
  {
    var id, now := listed.sessionId, inputs.now;
    var marked := UpdateSessionState(w, id, Reconciling, None, Some("daemon reconcile cycle"), now);
    JudgeIgnoresState(d, listed, Reconciling, None, Some("daemon reconcile cycle"), now);
    JudgedOnFields(d, listed);
    hide Judge, FailAndClose, CloseRuntimeSession, Migrate, PushEvent, MoveSession, Permitted, OnRoute, D.PlanRoute;
    var session := marked.sessions[id];
    match Judge(d, session) {
      case NoProtocol => FailRemoves(marked, session, LocalRuntimeFailure, "session is missing negotiated protocol", now);
      case Denied(reason) =>
        CloseRemoves(UpdateSessionState(marked, id, Closing, Some(PolicyRejected), Some(reason), now), session, now);
      case NoPath => FailRemoves(marked, session, PathExhaustion, "no route is available for session", now);
      case Broken(_) =>
      case Settled =>
      case Misplaced(route) => MoveDisposition(cfg, d, marked, session, route, inputs);
    }
  }

  lemma MoveDisposition(cfg: Config, d: D.DaemonState, w: World, session: SessionSnapshot, route: RoutePlan, inputs: Inputs)
    requires AtOwnIds(w) && session.sessionId in w.sessions && w.sessions[session.sessionId] == session
    requires Judge(d, session) == Misplaced(route)
    ensures var (after, outcome) := MoveSession(cfg, w, session, route, inputs);
            outcome.Ok? ==>
              && (outcome.value.disposition == ClosedNow <==> session.sessionId !in after.sessions)
              && (outcome.value.disposition == Upgraded ==> outcome.value.pathKind == Some(route.pathKind))
              && outcome.value.disposition != Unchanged
  {
    MisplacedIsPlanned(d, session);
    PlannedRoute(d, session.peer, session.protocol, session.class_);
    hide Judge, FailAndClose, Migrate, PushEvent, D.PlanRoute, RouteShaped, SessionMatchesRoute;
    var id := session.sessionId;
    var marked := UpdateSessionState(w, id, Migrating, None, Some("selected path changed; session migrating"), inputs.now);
    var (moved, outcome) := Migrate(cfg, marked, id, route, inputs);
    if outcome.Ok? {
      MigratedIsOpened(cfg, marked, id, route, inputs);
    } else {
      FailRemoves(moved, session, LocalRuntimeFailure, "session migration failed: " + ErrorText(outcome.error), inputs.now);
    }
  }

  // ---------------------------------------------------------------- reevaluate: why a session is closed

  /** The cause for which a session may not live, on the fields of the state. */
  ghost function CauseOf(d: D.DaemonState, runtimePeer: PeerId, session: SessionSnapshot): Option<PolicyCause> {
    if session.protocol.None? then None
    else if d.membership.subject != runtimePeer then Some(SubjectMismatchCause)
    else if exists e :: e in d.denied && e.peer == d.localPeer then Some(LocalMembershipDenied)
    else if exists e :: e in d.denied && e.peer == session.peer then Some(PeerMembershipDenied)
    else if P.Covered(d, session.protocol.value) then None
    else if Contains(session.protocol.value, "revoked") || Contains(session.protocol.value, "denied") then
      Some(PeerMembershipDenied)
    else Some(CapabilityDenied)
  }

  lemma CauseOnFields(d: D.DaemonState, runtimePeer: PeerId, session: SessionSnapshot)
    requires session.protocol.Some?
    ensures var enforced := Enforcement(d, runtimePeer, session.peer, session.protocol.value);
            CauseOf(d, runtimePeer, session) == if enforced.Some? then Some(enforced.value.0) else None
  {
    var protocol := session.protocol.value;
    P.DenyOnFields(d.denied, d.localPeer);
    P.DenyOnFields(d.denied, session.peer);
    P.AllowedOnFields(d, session.peer, protocol);
    if !D.ExplainPolicy(d, session.peer, protocol).allowed {
      CauseExactly(d, session.peer, protocol);
    }
    hide D.ExplainPolicy, P.Covered, Contains, RemoteCause, D.FindDenied;
  }

  ghost function CountCause(d: D.DaemonState, runtimePeer: PeerId, order: seq<SessionSnapshot>, cause: PolicyCause): nat {
    if order == [] then 0
    else One(CauseOf(d, runtimePeer, order[0]) == Some(cause)) + CountCause(d, runtimePeer, order[1..], cause)
  }

  function Counter(t: SessionTally, cause: PolicyCause): nat {
    match cause
    case SubjectMismatchCause => t.subjectMismatch
    case LocalMembershipDenied => t.localDenied
    case PeerMembershipDenied => t.peerDenied
    case CapabilityDenied => t.capabilityDenied
  }

  lemma TurnCause(cfg: Config, d: D.DaemonState, runtimePeer: PeerId, w: World, session: SessionSnapshot, inputs: Inputs)
    requires ReevaluateOne(cfg, d, runtimePeer, w, session, inputs).1.Ok?
    ensures var r := ReevaluateOne(cfg, d, runtimePeer, w, session, inputs).1.value;
            CauseOf(d, runtimePeer, session) == if r.PolicyClosed? then Some(r.cause) else None
  {
    if session.protocol.Some? {
      CauseOnFields(d, runtimePeer, session);
      if Enforcement(d, runtimePeer, session.peer, session.protocol.value).None? {
        KeptIsNotClosed(cfg, d, w, session, inputs);
      }
    }
    hide CauseOf, Enforcement, KeepOrMove, CloseRuntimeSession, PushEvent;
  }

  lemma KeptIsNotClosed(cfg: Config, d: D.DaemonState, w: World, session: SessionSnapshot, inputs: Inputs)
    ensures KeepOrMove(cfg, d, w, session, inputs).1.Ok? ==> !KeepOrMove(cfg, d, w, session, inputs).1.value.PolicyClosed?
  {
    hide Migrate, FailAndClose, PushEvent, D.PlanRoute, SessionMatchesRoute, FindSuppression, PutSuppression;
  }

  lemma CauseAdded(t: SessionTally, r: Reevaluation, cause: PolicyCause)
    ensures Counter(AddTo(t, r), cause) == Counter(t, cause) + One(r.PolicyClosed? && r.cause == cause)
  {
  }

  /** Each of the four counters counts the listed sessions that have its cause. */
  lemma {:induction false} CausesCounted(cfg: Config, d: D.DaemonState, runtimePeer: PeerId, w: World,
                                         order: seq<SessionSnapshot>, inputs: InputStream, i: nat, tally: SessionTally,
                                         cause: PolicyCause)
    requires i <= |order| && ReevaluateFrom(cfg, d, runtimePeer, w, order, inputs, i, tally).1.Ok?
    ensures Counter(ReevaluateFrom(cfg, d, runtimePeer, w, order, inputs, i, tally).1.value, cause) ==
            Counter(tally, cause) + CountCause(d, runtimePeer, order[i..], cause)
    decreases |order| - i
  {
    hide ReevaluateOne, AddTo, Counter, CauseOf;
    if i < |order| {
      var (next, outcome) := ReevaluateOne(cfg, d, runtimePeer, w, order[i], inputs(i));
      TurnCause(cfg, d, runtimePeer, w, order[i], inputs(i));
      CauseAdded(tally, outcome.value, cause);
      CausesCounted(cfg, d, runtimePeer, next, order, inputs, i + 1, AddTo(tally, outcome.value), cause);
      assert order[i..][1..] == order[i + 1..];
    } else {
      assert order[i..] == [];
    }
  }

  // ---------------------------------------------------------------- reevaluate: the columns of the report

  datatype Column = ClosedColumn | DegradedColumn | MigratedColumn | UntouchedColumn | AddedColumn | ClearedColumn

  function Reading(t: SessionTally, column: Column): nat {
    match column
    case ClosedColumn => t.closed
    case DegradedColumn => t.degraded
    case MigratedColumn => t.migrated
    case UntouchedColumn => t.untouched
    case AddedColumn => t.suppressionsAdded
    case ClearedColumn => t.suppressionsCleared
  }

  /** The turn belongs into the column. */
  predicate Shows(r: Reevaluation, column: Column) {
    match column
    case ClosedColumn => r.PolicyClosed? || r.MigrationFailed?
    case DegradedColumn => r.Restyled?
    case MigratedColumn => r.Migrated_?
    case UntouchedColumn => r.Kept?
    case AddedColumn => r.PolicyClosed? && r.suppressionAdded
    case ClearedColumn => !r.Skipped? && !r.PolicyClosed? && r.suppressionCleared
  }

  /** How many of the turns from position `i` on belong into the column. */
  ghost function CountShown(cfg: Config, d: D.DaemonState, runtimePeer: PeerId, w: World, order: seq<SessionSnapshot>,
                            inputs: InputStream, i: nat, column: Column): nat
    decreases |order| - i
  {
    if i >= |order| then 0
    else
      var (next, outcome) := ReevaluateOne(cfg, d, runtimePeer, w, order[i], inputs(i));
      if outcome.Err? then 0
      else One(Shows(outcome.value, column)) + CountShown(cfg, d, runtimePeer, next, order, inputs, i + 1, column)
  }

  lemma ColumnAdded(t: SessionTally, r: Reevaluation, column: Column)
    ensures Reading(AddTo(t, r), column) == Reading(t, column) + One(Shows(r, column))
  {
  }

  /** Each column of the report counts exactly the turns that belong into it. */
  lemma {:induction false} ColumnsCounted(cfg: Config, d: D.DaemonState, runtimePeer: PeerId, w: World,
                                          order: seq<SessionSnapshot>, inputs: InputStream, i: nat, tally: SessionTally,
                                          column: Column)
    requires i <= |order| && ReevaluateFrom(cfg, d, runtimePeer, w, order, inputs, i, tally).1.Ok?
    ensures Reading(ReevaluateFrom(cfg, d, runtimePeer, w, order, inputs, i, tally).1.value, column) ==
            Reading(tally, column) + CountShown(cfg, d, runtimePeer, w, order, inputs, i, column)
    decreases |order| - i
  {
    hide ReevaluateOne, AddTo, Reading, Shows;
    if i < |order| {
      var (next, outcome) := ReevaluateOne(cfg, d, runtimePeer, w, order[i], inputs(i));
      ColumnAdded(tally, outcome.value, column);
      ColumnsCounted(cfg, d, runtimePeer, next, order, inputs, i + 1, AddTo(tally, outcome.value), column);
    }
  }

  // ---------------------------------------------------------------- reevaluate: the sessions that may live

  /** A live session that may live, with an accepted turn. */
  ghost predicate SparedLive(cfg: Config, d: D.DaemonState, runtimePeer: PeerId, w: World, session: SessionSnapshot,
                             inputs: Inputs) {
    && AtOwnIds(w) && session.sessionId in w.sessions && w.sessions[session.sessionId] == session
    && session.protocol.Some? && CauseOf(d, runtimePeer, session).None?
    && ReevaluateOne(cfg, d, runtimePeer, w, session, inputs).1.Ok?
  }

  lemma SparedIsKeptOrMoved(cfg: Config, d: D.DaemonState, runtimePeer: PeerId, w: World, session: SessionSnapshot, inputs: Inputs)
    requires SparedLive(cfg, d, runtimePeer, w, session, inputs)
    ensures ReevaluateOne(cfg, d, runtimePeer, w, session, inputs) == KeepOrMove(cfg, d, w, session, inputs)
  {
    CauseOnFields(d, runtimePeer, session);
    hide CauseOf, Enforcement, KeepOrMove;
  }

  /** On its route it keeps its record, and is restored if it was degraded. */
  lemma SparedOnRoute(cfg: Config, d: D.DaemonState, runtimePeer: PeerId, w: World, session: SessionSnapshot, inputs: Inputs)
    requires SparedLive(cfg, d, runtimePeer, w, session, inputs)
    requires Planned(d, session).Ok? && OnRoute(session, Planned(d, session).value)
    ensures var (after, outcome) := ReevaluateOne(cfg, d, runtimePeer, w, session, inputs);
            var id := session.sessionId;
            && outcome.value.Kept? && id in after.sessions
            && (session.state != Degraded ==> after.sessions[id] == session)
            && (session.state == Degraded ==>
                  after.sessions[id] == session.(state := Active, closureReason := None, lastActivity := inputs.now,
                                                 stateReason := after.sessions[id].stateReason))
  {
    SparedIsKeptOrMoved(cfg, d, runtimePeer, w, session, inputs);
    MatchIsOnRoute(d, session);
    hide ReevaluateOne, PushEvent, D.PlanRoute, SessionMatchesRoute, OnRoute, FindSuppression, DropSuppression, Rehome;
  }

  /** Off its route and able to migrate it is moved onto it, or closed and suppressed when the migration fails. */
  lemma SparedOffRoute(cfg: Config, d: D.DaemonState, runtimePeer: PeerId, w: World, session: SessionSnapshot, inputs: Inputs)
    requires SparedLive(cfg, d, runtimePeer, w, session, inputs) && session.migrationCapable
    requires Planned(d, session).Ok? && !OnRoute(session, Planned(d, session).value)
    ensures var (after, outcome) := ReevaluateOne(cfg, d, runtimePeer, w, session, inputs);
            var id, route := session.sessionId, Planned(d, session).value;
            && (outcome.value.Migrated_? || outcome.value.MigrationFailed?)
            && (outcome.value.Migrated_? ==>
                  id in after.sessions && (route.remoteEndpoints != [] ==> OnRoute(after.sessions[id], route)))
            && (outcome.value.MigrationFailed? ==> id !in after.sessions && Suppressed(after, KeyOf(session)))
  {
    SparedIsKeptOrMoved(cfg, d, runtimePeer, w, session, inputs);
    MatchIsOnRoute(d, session);
    PlannedRoute(d, session.peer, session.protocol, session.class_);
    hide ReevaluateOne, PushEvent, D.PlanRoute, SessionMatchesRoute, OnRoute, FindSuppression, DropSuppression, Rehome,
         RouteShaped;
    var cleared := FindSuppression(w.suppressions, KeyOf(session)).Some?;
    RehomeOnFields(cfg, ClearSuppression(w, KeyOf(session), inputs.now), session, Planned(d, session).value, cleared, inputs);
  }

  /** Off its route and unable to migrate, or without any route, it stays where it is, degraded. */
  lemma SparedWithoutRoute(cfg: Config, d: D.DaemonState, runtimePeer: PeerId, w: World, session: SessionSnapshot,
                           inputs: Inputs)
    requires SparedLive(cfg, d, runtimePeer, w, session, inputs)
    requires Planned(d, session).Err? || (!OnRoute(session, Planned(d, session).value) && !session.migrationCapable)
    ensures var (after, outcome) := ReevaluateOne(cfg, d, runtimePeer, w, session, inputs);
            var id := session.sessionId;
            && outcome.value.Restyled? && id in after.sessions
            && after.sessions[id] == session.(state := Degraded, closureReason := None, lastActivity := inputs.now,
                                              stateReason := after.sessions[id].stateReason)
  {
    SparedIsKeptOrMoved(cfg, d, runtimePeer, w, session, inputs);
    if Planned(d, session).Ok? {
      MatchIsOnRoute(d, session);
    }
    hide ReevaluateOne, PushEvent, D.PlanRoute, SessionMatchesRoute, OnRoute, FindSuppression, DropSuppression, Rehome;
  }

  lemma RehomeOnFields(cfg: Config, w: World, session: SessionSnapshot, route: RoutePlan, cleared: bool, inputs: Inputs)
    requires AtOwnIds(w) && session.sessionId in w.sessions && w.sessions[session.sessionId] == session
    requires RouteShaped(route) && RouteKey(route) == KeyOf(session)
    requires route.relay.Some? ==> route.relay.value.destinationEndpoints == route.remoteEndpoints
    requires Rehome(cfg, w, session, route, cleared, inputs).1.Ok?
    ensures var (after, outcome) := Rehome(cfg, w, session, route, cleared, inputs);
            && (outcome.value == Migrated_(cleared) || outcome.value == MigrationFailed(cleared))
            && (outcome.value.Migrated_? ==> session.sessionId in after.sessions && (route.remoteEndpoints != [] ==>
                                               OnRoute(after.sessions[session.sessionId], route)))
            && (outcome.value.MigrationFailed? ==> session.sessionId !in after.sessions && Suppressed(after, KeyOf(session)))
  {
    var id, now := session.sessionId, inputs.now;
    var marked := UpdateSessionState(Emit(w, "path.migration_started", "session", id, now), id, Migrating, None,
                                     Some(BETTER_PATH), now);
    hide Migrate, FailAndClose, PushEvent, FindSuppression, PutSuppression, RouteShaped;
    var (moved, outcome) := Migrate(cfg, marked, id, route, inputs);
    if outcome.Ok? {
      MigratedIsOpened(cfg, marked, id, route, inputs);
    } else {
      var reason := "authority reevaluation migration failed: " + ErrorText(outcome.error);
      FailRemoves(moved, session, LocalRuntimeFailure, reason, now);
      var closed := FailAndClose(moved, session, LocalRuntimeFailure, reason, now).0;
      PutFinds(closed.suppressions, ReconnectSuppression(KeyOf(session), reason, now), KeyOf(session));
    }
  }
}
