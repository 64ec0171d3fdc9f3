/**
 Reconcile reaches a fixed point: after a successful cycle, a second cycle under the same durable state
 leaves every session unchanged exactly when every remaining session's peer has an address.
 */
module ReconcileProofs {
  import opened Model
  import opened Transport
  import opened RelayLeases
  import opened AdapterRuns
  import opened SessionKeys
  import opened ControlPlane
  import opened ControlTraces
  import opened ControlRuns
  import D = DurableState

  // ---------------------------------------------------------------- reports

  /** Every report accounts for each examined session once. */
  lemma {:induction false} ReportBalances(entries: seq<ReconcileEntry>)
    ensures var report := ReportOf(entries);
            report.examined == report.untouched + report.upgraded + report.closed
  {
    if entries != [] {
      ReportBalances(entries[1..]);
    }
  }

  lemma {:induction false} AllUnchangedIff(entries: seq<ReconcileEntry>)
    ensures ReportOf(entries).untouched == |entries| <==>
            forall i :: 0 <= i < |entries| ==> entries[i].disposition == Unchanged
  {
    var keep := (e: ReconcileEntry) => e.disposition == Unchanged;
    FilterMembers(entries, keep);
    if entries != [] {
      AllUnchangedIff(entries[1..]);
      FilterMembers(entries[1..], keep);
      assert forall i :: 0 < i < |entries| ==> entries[i] == entries[1..][i - 1];
      if forall i :: 0 <= i < |entries| ==> entries[i].disposition == Unchanged {
        forall i | 0 <= i < |entries[1..]| ensures entries[1..][i].disposition == Unchanged {
          assert entries[1..][i] == entries[i + 1];
        }
      }
    }
  }

  // ---------------------------------------------------------------- verdicts

  /** The verdict looks at key, path and endpoints, not at lifecycle fields. */
  lemma JudgeIgnoresState(d: D.DaemonState, session: SessionSnapshot, state: RuntimeSessionState,
                          closureReason: Option<SessionClosureReason>, stateReason: Option<string>, now: nat)
    ensures Judge(d, session.(state := state, closureReason := closureReason, stateReason := stateReason,
                              lastActivity := now)) == Judge(d, session)
  {
    hide D.PlanRoute, D.ExplainPolicy;
  }

  predicate PeerHasAddress(d: D.DaemonState, peer: PeerId) {
    D.FindPeer(d.peers, peer).Some? && D.FindPeer(d.peers, peer).value.addresses != []
  }

  /** Where a session may end up: in place, or on a route that names no endpoint to compare with. */
  predicate InPlace(d: D.DaemonState, session: SessionSnapshot) {
    var verdict := Judge(d, session);
    verdict.Settled? || (verdict.Misplaced? && verdict.route.remoteEndpoints == [])
  }

  lemma InPlaceWithAddress(d: D.DaemonState, session: SessionSnapshot)
    requires InPlace(d, session)
    ensures Judge(d, session).Settled? <==> PeerHasAddress(d, session.peer)
  {
    if Judge(d, session).Misplaced? {
      MisplacedIsPlanned(d, session);
    }
    PlannedRoute(d, session.peer, session.protocol, session.class_);
    hide D.PlanRoute, D.ExplainPolicy;
  }

  /** A session opened for a planned route matches it, when the route names an endpoint. */
  lemma OpenedMatchesRoute(cfg: Config, w: World, route: RoutePlan, inputs: Inputs)
    requires RouteShaped(route) && SnapshotForRoute(cfg, w, route, inputs).1.Ok?
    requires route.relay.Some? ==> route.relay.value.destinationEndpoints == route.remoteEndpoints
    ensures var session := SnapshotForRoute(cfg, w, route, inputs).1.value;
            SessionMatchesRoute(session, route) <==> route.remoteEndpoints != []
  {
    hide OpenAt, LogicalSessionId;
  }

  lemma MigratedIsOpened(cfg: Config, w: World, id: SessionId, route: RoutePlan, inputs: Inputs)
    requires AtOwnIds(w) && id in w.sessions && Migrate(cfg, w, id, route, inputs).1.Ok?
    requires RouteShaped(route)
    requires route.relay.Some? ==> route.relay.value.destinationEndpoints == route.remoteEndpoints
    ensures var (after, outcome) := Migrate(cfg, w, id, route, inputs);
            && id in after.sessions && after.sessions[id] == outcome.value
            && KeyOf(outcome.value) == RouteKey(route)
            && (SessionMatchesRoute(outcome.value, route) <==> route.remoteEndpoints != [])
  {
    hide Upsert, RelayClose, SnapshotForRoute, ReleasesRelay, LogicalSessionId;
    var marked := UpdateSessionState(w, id, Migrating, None, Some("daemon requested path migration"), inputs.now);
    SnapshotShape(cfg, marked, route, inputs);
    OpenedMatchesRoute(cfg, marked, route, inputs);
    var existing := marked.sessions[id];
    var (dialed, outcome) := SnapshotForRoute(cfg, marked, route, inputs);
    var migrated := outcome.value.(sessionId := existing.sessionId, createdAt := existing.createdAt,
                                   lastActivity := inputs.now);
    RelayCloseShape(dialed, existing.relayControlEndpoint, existing.transportSessionId);
    UpsertShape(RelayClose(dialed, existing.relayControlEndpoint, existing.transportSessionId).0, migrated, inputs.now);
    UpsertShape(dialed, migrated, inputs.now);
  }

  lemma PlannedSame(d: D.DaemonState, session: SessionSnapshot, migrated: SessionSnapshot, route: RoutePlan)
    requires Judge(d, session) == Misplaced(route) && KeyOf(migrated) == KeyOf(session)
    requires SessionMatchesRoute(migrated, route) <==> route.remoteEndpoints != []
    ensures InPlace(d, migrated)
  {
    hide D.PlanRoute, D.ExplainPolicy, SessionMatchesRoute;
  }

  // ---------------------------------------------------------------- one session

  lemma CloseRemoves(w: World, session: SessionSnapshot, now: nat)
    ensures session.sessionId !in CloseRuntimeSession(w, session, now).0.sessions
  {
    hide CloseRuntimeSession;
    CloseStores(w, session, now);
  }

  lemma FailRemoves(w: World, session: SessionSnapshot, reason: SessionClosureReason, text: string, now: nat)
    ensures session.sessionId !in FailAndClose(w, session, reason, text, now).0.sessions
  {
    hide CloseRuntimeSession, UpdateSessionState, PushEvent;
    var failed := UpdateSessionState(w, session.sessionId, Failed, Some(reason), Some(text), now);
    CloseRemoves(Emit(failed, "path.failed", "session", session.sessionId, now), session, now);
  }

  /** After its turn a session is gone or in place; it was unchanged exactly when it was settled before. */
  lemma ReconciledInPlace(cfg: Config, d: D.DaemonState, w: World, listed: SessionSnapshot, inputs: Inputs)
    requires AtOwnIds(w) && listed.sessionId in w.sessions && w.sessions[listed.sessionId] == listed
    ensures var (after, outcome) := ReconcileOne(cfg, d, w, listed, inputs);
            && (outcome.Ok? && listed.sessionId in after.sessions ==> InPlace(d, after.sessions[listed.sessionId]))
            && (outcome.Ok? ==> (outcome.value.disposition == Unchanged <==> Judge(d, listed).Settled?))
            && (Judge(d, listed).Settled? ==> outcome.Ok? && after.relays == w.relays)
  {
    hide Judge, FailAndClose, CloseRuntimeSession, Migrate, PushEvent;
    var id, now := listed.sessionId, inputs.now;
    var marked := UpdateSessionState(w, id, Reconciling, None, Some("daemon reconcile cycle"), now);
    var session := marked.sessions[id];
    JudgeIgnoresState(d, listed, Reconciling, None, Some("daemon reconcile cycle"), now);
    match Judge(d, session) {
      case NoProtocol =>
        FailRemoves(marked, session, LocalRuntimeFailure, "session is missing negotiated protocol", now);
      case Denied(reason) =>
        CloseRemoves(UpdateSessionState(marked, id, Closing, Some(PolicyRejected), Some(reason), now), session, now);
      case NoPath =>
        FailRemoves(marked, session, PathExhaustion, "no route is available for session", now);
      case Broken(_) =>
      case Settled =>
        JudgeIgnoresState(d, session, Active, None, Some("selected path still matches active session"), now);
      case Misplaced(route) =>
        MovedInPlace(cfg, d, marked, session, route, inputs);
    }
  }

  lemma MovedInPlace(cfg: Config, d: D.DaemonState, w: World, session: SessionSnapshot, route: RoutePlan, inputs: Inputs)
    requires AtOwnIds(w) && session.sessionId in w.sessions && w.sessions[session.sessionId] == session
    requires Judge(d, session) == Misplaced(route)
    ensures var (after, outcome) := MoveSession(cfg, w, session, route, inputs);
            && (outcome.Ok? && session.sessionId in after.sessions ==> InPlace(d, after.sessions[session.sessionId]))
            && (outcome.Ok? ==> outcome.value.disposition != Unchanged)
  {
    MisplacedIsPlanned(d, session);
    PlannedRoute(d, session.peer, session.protocol, session.class_);
    hide Judge, FailAndClose, Migrate, PushEvent, D.PlanRoute, RouteShaped, SessionMatchesRoute;
    var id := session.sessionId;
    var marked := UpdateSessionState(w, id, Migrating, None, Some("selected path changed; session migrating"), inputs.now);
    var (moved, outcome) := Migrate(cfg, marked, id, route, inputs);
    if outcome.Ok? {
      MigratedIsOpened(cfg, marked, id, route, inputs);
      PlannedSame(d, session, outcome.value, route);
    } else {
      FailRemoves(moved, session, LocalRuntimeFailure, "session migration failed: " + ErrorText(outcome.error), inputs.now);
    }
  }

  // ---------------------------------------------------------------- a whole cycle

  /** The sessions before position `i` that are still live are in place. */
  ghost predicate DoneInPlace(d: D.DaemonState, w: World, order: seq<SessionSnapshot>, i: nat) {
    forall k :: 0 <= k < i && k < |order| && order[k].sessionId in w.sessions ==>
      InPlace(d, w.sessions[order[k].sessionId])
  }

  lemma DoneNext(d: D.DaemonState, w: World, next: World, order: seq<SessionSnapshot>, i: nat)
    requires i < |order| && AsListed(w, order, i) && DoneInPlace(d, w, order, i)
    requires Confined(w, next, order[i].sessionId, KeyOf(order[i]))
    requires order[i].sessionId in next.sessions ==> InPlace(d, next.sessions[order[i].sessionId])
    ensures DoneInPlace(d, next, order, i + 1)
  {
    hide InPlace;
    var id := order[i].sessionId;
    forall k | 0 <= k < i && order[k].sessionId in next.sessions
      ensures InPlace(d, next.sessions[order[k].sessionId])
    {
      assert order[k].sessionId in next.sessions - {id} && order[k].sessionId in w.sessions - {id};
      assert (next.sessions - {id})[order[k].sessionId] == (w.sessions - {id})[order[k].sessionId];
    }
  }

  ghost predicate KeysWithin(w: World, order: seq<SessionSnapshot>) {
    forall id :: id in w.sessions ==> exists i :: 0 <= i < |order| && order[i].sessionId == id
  }

  lemma KeysStayWithin(w: World, next: World, order: seq<SessionSnapshot>, id: SessionId, key: SessionKey)
    requires KeysWithin(w, order) && Confined(w, next, id, key)
    ensures KeysWithin(next, order)
  {
    forall other | other in next.sessions ensures other in w.sessions {
      assert other == id || (other in next.sessions - {id} && other in w.sessions - {id});
    }
  }

  lemma {:induction false} CycleSettles(cfg: Config, d: D.DaemonState, w: World, order: seq<SessionSnapshot>,
                                        inputs: InputStream, i: nat, entries: seq<ReconcileEntry>)
    requires AtOwnIds(w) && AsListed(w, order, i) && DoneInPlace(d, w, order, i) && KeysWithin(w, order)
    requires i <= |order|
    requires ReconcileFrom(cfg, d, w, order, inputs, i, entries).1.Ok?
    ensures var after := ReconcileFrom(cfg, d, w, order, inputs, i, entries).0;
            AtOwnIds(after) && forall id :: id in after.sessions ==> InPlace(d, after.sessions[id])
    decreases |order| - i
  {
    hide ReconcileOne, InPlace, Confined;
    if i < |order| {
      var (next, outcome) := ReconcileOne(cfg, d, w, order[i], inputs(i));
      ReconciledInPlace(cfg, d, w, order[i], inputs(i));
      ReconcileConfined(cfg, d, w, order[i], inputs(i));
      AsListedNext(w, next, order, i);
      DoneNext(d, w, next, order, i);
      KeysStayWithin(w, next, order, order[i].sessionId, KeyOf(order[i]));
      CycleSettles(cfg, d, next, order, inputs, i + 1, entries + [outcome.value]);
    }
  }

  /** Nothing but marks on records: no relay is opened or closed. */
  predicate OnlyMarks(trace: seq<AdapterStep>) {
    forall i :: 0 <= i < |trace| ==> trace[i].UpdateStep?
  }

  lemma SettledOnlyMarks(cfg: Config, d: D.DaemonState, w: World, listed: SessionSnapshot, inputs: Inputs)
    requires listed.sessionId in w.sessions && w.sessions[listed.sessionId] == listed && Judge(d, listed).Settled?
    ensures OnlyMarks(ReconcileTrace(cfg, d, w, listed, inputs))
  {
    JudgeIgnoresState(d, listed, Reconciling, None, Some("daemon reconcile cycle"), inputs.now);
    hide Judge, PushEvent;
  }

  /** What a cycle reports for each listed session, and that it succeeds when all are settled. */
  lemma {:induction false} CycleReports(cfg: Config, d: D.DaemonState, w: World, order: seq<SessionSnapshot>,
                                        inputs: InputStream, i: nat, entries: seq<ReconcileEntry>)
    requires AtOwnIds(w) && AsListed(w, order, i) && i <= |order| && |entries| == i
    ensures var (after, outcome) := ReconcileFrom(cfg, d, w, order, inputs, i, entries);
            && (outcome.Ok? ==>
                  && |outcome.value| == |order| && entries <= outcome.value
                  && (forall k :: i <= k < |order| ==>
                        (outcome.value[k].disposition == Unchanged <==> Judge(d, order[k]).Settled?)))
            && ((forall k :: i <= k < |order| ==> Judge(d, order[k]).Settled?) ==>
                  outcome.Ok? && after.relays == w.relays && OnlyMarks(ReconcileCycle(cfg, d, w, order, inputs, i)))
    decreases |order| - i
  {
    hide ReconcileOne, Judge, Confined, ReconcileTrace;
    if i < |order| {
      if Judge(d, order[i]).Settled? {
        SettledOnlyMarks(cfg, d, w, order[i], inputs(i));
      }
      var (next, outcome) := ReconcileOne(cfg, d, w, order[i], inputs(i));
      ReconciledInPlace(cfg, d, w, order[i], inputs(i));
      ReconcileConfined(cfg, d, w, order[i], inputs(i));
      AsListedNext(w, next, order, i);
      if outcome.Ok? {
        CycleReports(cfg, d, next, order, inputs, i + 1, entries + [outcome.value]);
      }
    }
  }

  /**
   The fixed point. After a successful cycle, the next one under the same durable state succeeds with
   every session unchanged, and calls no relay, exactly when each remaining session's peer has an address.
   */
  lemma ReconcileFixedPoint(cfg: Config, d: D.DaemonState, w: World, order: seq<SessionSnapshot>, inputs: InputStream,
                            order2: seq<SessionSnapshot>, inputs2: InputStream)
    requires AtOwnIds(w) && Lists(order, w.sessions)
    requires ReconcileFrom(cfg, d, w, order, inputs, 0, []).1.Ok?
    requires Lists(order2, ReconcileFrom(cfg, d, w, order, inputs, 0, []).0.sessions)
    ensures var first := ReconcileFrom(cfg, d, w, order, inputs, 0, []).0;
            var (second, outcome) := ReconcileFrom(cfg, d, first, order2, inputs2, 0, []);
            && ((outcome.Ok? && ReportOf(outcome.value).untouched == ReportOf(outcome.value).examined) <==>
                (forall id :: id in first.sessions ==> PeerHasAddress(d, first.sessions[id].peer)))
            && ((forall id :: id in first.sessions ==> PeerHasAddress(d, first.sessions[id].peer)) ==>
                  && ReportOf(outcome.value).upgraded == 0 && ReportOf(outcome.value).closed == 0
                  && |outcome.value| == |order2| && second.relays == first.relays
                  && OnlyMarks(ReconcileCycle(cfg, d, first, order2, inputs2, 0)))
  {
    hide InPlace, PeerHasAddress, ReconcileFrom, ReconcileCycle, OnlyMarks, Judge;
    var first := ReconcileFrom(cfg, d, w, order, inputs, 0, []).0;
    var (second, outcome) := ReconcileFrom(cfg, d, first, order2, inputs2, 0, []);
    CycleSettles(cfg, d, w, order, inputs, 0, []);
    CycleReports(cfg, d, first, order2, inputs2, 0, []);
    forall id | id in first.sessions
      ensures Judge(d, first.sessions[id]).Settled? <==> PeerHasAddress(d, first.sessions[id].peer)
    {
      InPlaceWithAddress(d, first.sessions[id]);
    }
    if outcome.Ok? {
      AllUnchangedIff(outcome.value);
      ReportBalances(outcome.value);
    }
  }
}
