/**
 The control plane of crates/fabric as a class: it owns the durable state and drives a transport. The
 loops are proved against the folds of `ControlPlane`.
 */
module ControlLoops {
  import opened Model
  import opened Policy
  import opened Transport
  import opened QuicAdapter
  import opened ControlPlane
  import D = DurableState

  class LocalControlPlane {
    var state: D.DaemonState

    constructor (state: D.DaemonState)
      ensures this.state == state
    {
      this.state := state;
    }

    /** Loads the state and recomputes its path candidates. */
    method EnsureState() returns (d: D.DaemonState)
      ensures d == D.Recached(state)
    {
      var candidates := D.MergeCandidates(state);
      d := state.(pathCandidates := candidates);
    }

    method FailAndCloseSession(transport: QuicTransportAdapter, session: SessionSnapshot,
                               closureReason: SessionClosureReason, stateReason: string, now: nat)
      returns (outcome: Result<(), D.DaemonError>)
      requires transport.Valid()
      modifies transport, transport.control.Runtimes()
      ensures transport.Valid()
      ensures (transport.View(), outcome)
           == FailAndClose(old(transport.View()), session, closureReason, stateReason, now)
    {
      hide CloseRuntimeSession, UpdateSessionState, PushEvent;
      transport.UpdateSessionState(session.sessionId, Failed, Some(closureReason), Some(stateReason), now);
      transport.EmitRuntimeEvent("path.failed", "session", session.sessionId, now);
      var closed := transport.CloseSession(session, now);
      outcome := if closed.Err? then Err(D.TransportFailed(closed.error)) else Ok(());
    }

    // -------------------------------------------------------------- reconcile

    method MoveToRoute(transport: QuicTransportAdapter, session: SessionSnapshot, route: RoutePlan, inputs: Inputs)
      returns (outcome: Result<ReconcileEntry, D.DaemonError>)
      requires transport.Valid()
      modifies transport, transport.control.Runtimes()
      ensures transport.Valid()
      ensures (transport.View(), outcome) == MoveSession(transport.cfg, old(transport.View()), session, route, inputs)
    {
      hide Migrate, UpdateSessionState, FailAndClose;
      transport.UpdateSessionState(session.sessionId, Migrating, None,
                                   Some("selected path changed; session migrating"), inputs.now);
      var migrated := transport.Migrate(session.sessionId, route, inputs);
      if migrated.Ok? {
        return Ok(ReconcileEntry(session.sessionId, session.peer, Upgraded, Some(route.pathKind)));
      }
      var closed := FailAndCloseSession(transport, session, LocalRuntimeFailure,
                                        "session migration failed: " + ErrorText(migrated.error), inputs.now);
      outcome := if closed.Err? then Err(closed.error) else Ok(ClosedEntry(session));
    }

    method ReconcileSession(transport: QuicTransportAdapter, d: D.DaemonState, listed: SessionSnapshot, inputs: Inputs)
      returns (outcome: Result<ReconcileEntry, D.DaemonError>)
      requires transport.Valid()
      modifies transport, transport.control.Runtimes()
      ensures transport.Valid()
      ensures (transport.View(), outcome) == ReconcileOne(transport.cfg, d, old(transport.View()), listed, inputs)
    {
      hide UpdateSessionState, FailAndClose, MoveSession, CloseRuntimeSession, D.ExplainPolicy, D.PlanRoute,
           SessionMatchesRoute;
      var id, now := listed.sessionId, inputs.now;
      transport.UpdateSessionState(id, Reconciling, None, Some("daemon reconcile cycle"), now);
      if id !in transport.sessions {
        return Ok(ClosedEntry(listed));
      }
      var session := transport.sessions[id];
      if session.protocol.None? {
        var closed := FailAndCloseSession(transport, session, LocalRuntimeFailure,
                                          "session is missing negotiated protocol", now);
        return if closed.Err? then Err(closed.error) else Ok(ClosedEntry(session));
      }
      var policy := D.ExplainPolicy(d, session.peer, session.protocol.value);
      if !policy.allowed {
        transport.UpdateSessionState(id, Closing, Some(PolicyRejected), Some(policy.reason), now);
        var closed := transport.CloseSession(session, now);
        return if closed.Err? then Err(D.TransportFailed(closed.error)) else Ok(ClosedEntry(session));
      }
      var planned := D.PlanRoute(d, session.peer, session.protocol, session.class_);
      if planned.Err? {
        if planned.error.NoRouteTo? {
          var closed := FailAndCloseSession(transport, session, PathExhaustion, "no route is available for session", now);
          return if closed.Err? then Err(closed.error) else Ok(ClosedEntry(session));
        }
        return Err(planned.error);
      }
      if SessionMatchesRoute(session, planned.value) {
        transport.UpdateSessionState(id, Active, None, Some("selected path still matches active session"), now);
        return Ok(ReconcileEntry(id, session.peer, Unchanged, Some(session.pathKind)));
      }
      outcome := MoveToRoute(transport, session, planned.value, inputs);
    }

    /** The loop of a reconcile cycle, stopping at the first error. */
    method ReconcileListed(transport: QuicTransportAdapter, d: D.DaemonState, listed: seq<SessionSnapshot>,
                           inputs: InputStream) returns (outcome: Result<ReconcileReport, D.DaemonError>)
      requires transport.Valid()
      modifies transport, transport.control.Runtimes()
      ensures transport.Valid()
      ensures var (after, entries) :=
                ReconcileFrom(transport.cfg, d, old(transport.View()), listed, inputs, 0, []);
              && transport.View() == after
              && outcome == (if entries.Err? then Err(entries.error) else Ok(ReportOf(entries.value)))
    {
      hide ReconcileOne, CountOf;
      EmptyReport();
      var entries: seq<ReconcileEntry> := [];
      var kept, upgraded, closed := 0, 0, 0;
      for i := 0 to |listed|
        invariant transport.Valid()
        invariant ReconcileFrom(transport.cfg, d, old(transport.View()), listed, inputs, 0, [])
               == ReconcileFrom(transport.cfg, d, transport.View(), listed, inputs, i, entries)
        invariant ReportOf(entries) == ReconcileReport(|entries|, kept, upgraded, closed, entries)
      {
        var step := ReconcileSession(transport, d, listed[i], inputs(i));
        if step.Err? {
          return Err(step.error);
        }
        CountSnoc(entries, step.value);
        entries := entries + [step.value];
        match step.value.disposition {
          case Unchanged => kept := kept + 1;
          case Upgraded => upgraded := upgraded + 1;
          case ClosedNow => closed := closed + 1;
        }
      }
      outcome := Ok(ReconcileReport(|entries|, kept, upgraded, closed, entries));
    }

    /**
     One reconcile cycle. `order` is the listing that the cycle worked through; on success the state
     file is rewritten with its recomputed candidates.
     */
    method ReconcileSessions(transport: QuicTransportAdapter, inputs: InputStream)
      returns (outcome: Result<ReconcileReport, D.DaemonError>, ghost order: seq<SessionSnapshot>)
      requires transport.Valid()
      modifies this, transport, transport.control.Runtimes()
      ensures transport.Valid() && Lists(order, old(transport.sessions))
      ensures var (after, entries) :=
                ReconcileFrom(transport.cfg, D.Recached(old(state)), old(transport.View()), order, inputs, 0, []);
              && transport.View() == after
              && outcome == (if entries.Err? then Err(entries.error) else Ok(ReportOf(entries.value)))
              && state == if entries.Ok? then D.Recached(old(state)) else old(state)
    {
      hide ReconcileFrom, ReportOf, D.Recached, Lists;
      var d := EnsureState();
      var listed := transport.ActiveSessions();
      order := listed;
      assert transport.View() == old(transport.View());
      outcome := ReconcileListed(transport, d, listed, inputs);
      ghost var entries := ReconcileFrom(transport.cfg, d, old(transport.View()), listed, inputs, 0, []).1;
      assert entries.Ok? || entries.Err?;
      if outcome.Ok? {
        state := d;
      }
    }

    // -------------------------------------------------------------- reevaluate

    method Enforce(transport: QuicTransportAdapter, session: SessionSnapshot, cause: PolicyCause, reason: string, now: nat)
      returns (outcome: Result<Reevaluation, D.DaemonError>)
      requires transport.Valid()
      modifies transport, transport.control.Runtimes()
      ensures transport.Valid()
      ensures (transport.View(), outcome) == EnforceOn(old(transport.View()), session, cause, reason, now)
    {
      hide CloseRuntimeSession, UpdateSessionState, PushEvent, SuppressReconnect;
      var present := FindSuppression(transport.suppressions, KeyOf(session)).Some?;
      transport.SuppressReconnect(KeyOf(session), reason, now);
      transport.UpdateSessionState(session.sessionId, Closing, Some(PolicyRejected), Some(reason), now);
      transport.EmitRuntimeEvent("authority.policy_enforced", "session", session.sessionId, now);
      var closed := transport.CloseSession(session, now);
      outcome := if closed.Err? then Err(D.TransportFailed(closed.error)) else Ok(PolicyClosed(cause, !present));
    }

    method Degrade(transport: QuicTransportAdapter, session: SessionSnapshot, reason: string, now: nat)
      requires transport.Valid()
      modifies transport
      ensures transport.Valid() && transport.View() == DegradeSession(old(transport.View()), session, reason, now)
    {
      hide UpdateSessionState, PushEvent;
      transport.UpdateSessionState(session.sessionId, Degraded, None, Some(reason), now);
      transport.EmitRuntimeEvent("path.degraded", "session", session.sessionId, now);
    }

    method MoveOrClose(transport: QuicTransportAdapter, session: SessionSnapshot, route: RoutePlan, cleared: bool,
                       inputs: Inputs) returns (outcome: Result<Reevaluation, D.DaemonError>)
      requires transport.Valid()
      modifies transport, transport.control.Runtimes()
      ensures transport.Valid()
      ensures (transport.View(), outcome) == Rehome(transport.cfg, old(transport.View()), session, route, cleared, inputs)
    {
      hide Migrate, UpdateSessionState, FailAndClose, PushEvent, SuppressReconnect;
      var id, now := session.sessionId, inputs.now;
      transport.EmitRuntimeEvent("path.migration_started", "session", id, now);
      transport.UpdateSessionState(id, Migrating, None, Some(BETTER_PATH), now);
      var migrated := transport.Migrate(id, route, inputs);
      if migrated.Ok? {
        return Ok(Migrated_(cleared));
      }
      var reason := "authority reevaluation migration failed: " + ErrorText(migrated.error);
      var closed := FailAndCloseSession(transport, session, LocalRuntimeFailure, reason, now);
      if closed.Err? {
        return Err(closed.error);
      }
      transport.SuppressReconnect(KeyOf(session), reason, now);
      outcome := Ok(MigrationFailed(cleared));
    }

    method KeepOrMoveSession(transport: QuicTransportAdapter, d: D.DaemonState, session: SessionSnapshot, inputs: Inputs)
      returns (outcome: Result<Reevaluation, D.DaemonError>)
      requires transport.Valid()
      modifies transport, transport.control.Runtimes()
      ensures transport.Valid()
      ensures (transport.View(), outcome) == KeepOrMove(transport.cfg, d, old(transport.View()), session, inputs)
    {
      hide D.PlanRoute, SessionMatchesRoute, ClearSuppression, UpdateSessionState, Rehome, DegradeSession;
      var cleared := FindSuppression(transport.suppressions, KeyOf(session)).Some?;
      transport.ClearReconnectSuppression(KeyOf(session), inputs.now);
      var planned := D.PlanRoute(d, session.peer, session.protocol, session.class_);
      if planned.Err? {
        if !planned.error.NoRouteTo? {
          return Err(planned.error);
        }
        Degrade(transport, session, NO_REPLACEMENT, inputs.now);
        return Ok(Restyled(cleared));
      }
      if SessionMatchesRoute(session, planned.value) {
        if session.state == Degraded {
          transport.UpdateSessionState(session.sessionId, Active, None,
                                       Some("authority reevaluation restored the selected path posture"), inputs.now);
        }
        return Ok(Kept(cleared));
      }
      if session.migrationCapable {
        outcome := MoveOrClose(transport, session, planned.value, cleared, inputs);
      } else {
        Degrade(transport, session, CANNOT_MIGRATE, inputs.now);
        outcome := Ok(Restyled(cleared));
      }
    }

    method ReevaluateSession(transport: QuicTransportAdapter, d: D.DaemonState, runtimePeer: PeerId,
                             session: SessionSnapshot, inputs: Inputs)
      returns (outcome: Result<Reevaluation, D.DaemonError>)
      requires transport.Valid()
      modifies transport, transport.control.Runtimes()
      ensures transport.Valid()
      ensures (transport.View(), outcome)
           == ReevaluateOne(transport.cfg, d, runtimePeer, old(transport.View()), session, inputs)
    {
      hide EnforceOn, KeepOrMove, Enforcement;
      if session.protocol.None? {
        return Ok(Skipped);
      }
      var enforced := Enforcement(d, runtimePeer, session.peer, session.protocol.value);
      if enforced.Some? {
        outcome := Enforce(transport, session, enforced.value.0, enforced.value.1, inputs.now);
      } else {
        outcome := KeepOrMoveSession(transport, d, session, inputs);
      }
    }

    method ReevaluateListener(transport: QuicTransportAdapter, d: D.DaemonState, localReason: Option<string>, id: string,
                              now: nat, tally: ListenerTally) returns (counted: ListenerTally)
      requires transport.Valid() && id in transport.listeners
      modifies transport
      ensures transport.Valid()
      ensures (transport.View(), counted) == ListenerOne(d, localReason, old(transport.View()), id, now, tally)
    {
      hide EnforcedReason, PushEvent;
      var l := transport.listeners[id];
      counted := tally.(reevaluated := tally.reevaluated + 1);
      if l.state == ListenerFailed {
        return;
      }
      var enforced := EnforcedReason(d, localReason, l.protocol);
      if enforced.Some? {
        transport.UpdateListenerState(id, ListenerSuppressed, enforced);
        if !AlreadySuppressed(l, enforced.value) {
          counted := counted.(suppressed := counted.suppressed + 1);
          transport.EmitRuntimeEvent("authority.policy_enforced", "listener", id, now);
        }
      } else if l.state == ListenerSuppressed {
        transport.UpdateListenerState(id, ListenerActive, None);
        counted := counted.(restored := counted.restored + 1);
      }
    }

    /** The session loop of a reevaluation, stopping at the first error. */
    method ReevaluateListed(transport: QuicTransportAdapter, d: D.DaemonState, runtimePeer: PeerId,
                            listed: seq<SessionSnapshot>, inputs: InputStream)
      returns (outcome: Result<SessionTally, D.DaemonError>)
      requires transport.Valid()
      modifies transport, transport.control.Runtimes()
      ensures transport.Valid()
      ensures (transport.View(), outcome)
           == ReevaluateFrom(transport.cfg, d, runtimePeer, old(transport.View()), listed, inputs, 0, NO_TALLY)
    {
      hide ReevaluateOne, AddTo;
      var tally := NO_TALLY;
      for i := 0 to |listed|
        invariant transport.Valid()
        invariant ReevaluateFrom(transport.cfg, d, runtimePeer, old(transport.View()), listed, inputs, 0, NO_TALLY)
               == ReevaluateFrom(transport.cfg, d, runtimePeer, transport.View(), listed, inputs, i, tally)
      {
        var step := ReevaluateSession(transport, d, runtimePeer, listed[i], inputs(i));
        if step.Err? {
          return Err(step.error);
        }
        tally := AddTo(tally, step.value);
      }
      outcome := Ok(tally);
    }

    /** The listener loop of a reevaluation. */
    method ReevaluateListeners(transport: QuicTransportAdapter, d: D.DaemonState, localReason: Option<string>, now: nat)
      returns (counted: ListenerTally, ghost ids: seq<string>)
      requires transport.Valid()
      modifies transport
      ensures transport.Valid() && Enumerates(ids, old(transport.listeners).Keys)
      ensures forall k :: 0 <= k < |ids| ==> ids[k] in old(transport.listeners)
      ensures (transport.View(), counted)
           == ListenersFrom(d, localReason, old(transport.View()), ids, now, 0, ListenerTally(0, 0, 0))
    {
      hide ListenerOne;
      var names := transport.ActiveListenerIds();
      ids := names;
      ghost var before := transport.View();
      assert before == old(transport.View());
      counted := ListenerTally(0, 0, 0);
      for i := 0 to |names|
        invariant transport.Valid()
        invariant forall k :: 0 <= k < |names| ==> names[k] in transport.listeners
        invariant ListenersFrom(d, localReason, before, names, now, 0, ListenerTally(0, 0, 0))
               == ListenersFrom(d, localReason, transport.View(), names, now, i, counted)
      {
        ListenerKeepsKeys(d, localReason, transport.View(), names[i], now, counted);
        counted := ReevaluateListener(transport, d, localReason, names[i], now, counted);
      }
    }

    /** One authority reevaluation: the sessions in `order`, then the listeners in `ids`. */
    method ReevaluateRuntimeAuthority(runtimePeer: PeerId, transport: QuicTransportAdapter, inputs: InputStream, now: nat)
      returns (outcome: Result<ReevaluationReport, D.DaemonError>, ghost order: seq<SessionSnapshot>,
               ghost ids: seq<string>)
      requires transport.Valid()
      modifies transport, transport.control.Runtimes()
      ensures transport.Valid() && Lists(order, old(transport.sessions))
      ensures var d := D.Recached(state);
              var (after, sessions) :=
                ReevaluateSessions(transport.cfg, d, runtimePeer, old(transport.View()), order, inputs, now);
              && (sessions.Err? ==> transport.View() == after && outcome == Err(sessions.error))
              && (sessions.Ok? ==>
                    && Enumerates(ids, after.listeners.Keys)
                    && (forall k :: 0 <= k < |ids| ==> ids[k] in after.listeners)
                    && var (final, listeners) :=
                         ListenersFrom(d, LocalReason(d, runtimePeer), after, ids, now, 0, ListenerTally(0, 0, 0));
                       && transport.View() == Emit(final, "authority.reevaluation_completed", "authority", runtimePeer, now)
                       && outcome == Ok(ReportOfReevaluation(d, runtimePeer, sessions.value, listeners)))
    {
      hide ReevaluateFrom, ListenersFrom, D.Recached, LocalReason, PushEvent, Lists, Enumerates;
      ids := [];
      var d := EnsureState();
      var localReason := LocalReason(d, runtimePeer);
      var listed := transport.ActiveSessions();
      order := listed;
      transport.EmitRuntimeEvent("authority.reevaluation_started", "authority", runtimePeer, now);
      var sessions := ReevaluateListed(transport, d, runtimePeer, listed, inputs);
      if sessions.Err? {
        return Err(sessions.error), order, ids;
      }
      var listeners, names := ReevaluateListeners(transport, d, localReason, now);
      ids := names;
      transport.EmitRuntimeEvent("authority.reevaluation_completed", "authority", runtimePeer, now);
      outcome := Ok(ReportOfReevaluation(d, runtimePeer, sessions.value, listeners));
    }

    // -------------------------------------------------------------- views and dialing

    method RealizeBestPath(transport: QuicTransportAdapter, peer: PeerId, protocol: ProtocolId, class_: TrafficClass,
                           inputs: Inputs) returns (outcome: Result<SessionSnapshot, D.DaemonError>)
      requires transport.Valid()
      modifies this, transport, transport.control.Runtimes()
      ensures transport.Valid()
      ensures (transport.View(), outcome)
           == ControlPlane.RealizeBestPath(transport.cfg, D.Recached(old(state)), old(transport.View()), peer, protocol,
                                           class_, inputs)
      ensures state == if outcome.Ok? then D.Recached(old(state)) else old(state)
    {
      hide Connect, D.ExplainPolicy, D.PlanRoute, D.Recached;
      var d := EnsureState();
      var policy := D.ExplainPolicy(d, peer, protocol);
      if !policy.allowed {
        return Err(D.PolicyRejects(policy.reason));
      }
      var planned := D.PlanRoute(d, peer, Some(protocol), class_);
      if planned.Err? {
        return Err(planned.error);
      }
      var connected := transport.Connect(planned.value, inputs);
      if connected.Err? {
        return Err(D.TransportFailed(connected.error));
      }
      state := d;
      outcome := Ok(connected.value);
    }

    method RuntimeListenersView(transport: QuicTransportAdapter) returns (shown: map<string, ListenerSnapshot>)
      requires transport.Valid()
      ensures shown == RuntimeListeners(D.Recached(state), transport.View())
    {
      var d := EnsureState();
      var reason := LocalReason(d, d.localPeer);
      var ids := transport.ActiveListenerIds();
      shown := map[];
      for i := 0 to |ids|
        invariant shown.Keys == set k | 0 <= k < i :: ids[k]
        invariant forall k :: 0 <= k < i ==> ids[k] in transport.listeners
                                             && shown[ids[k]] == Judged(d, reason, transport.listeners[ids[k]])
      {
        assert ids[i] in transport.listeners.Keys;
        shown := shown[ids[i] := Judged(d, reason, transport.listeners[ids[i]])];
      }
      assert shown.Keys == transport.listeners.Keys;
    }
  }

  lemma EmptyReport()
    ensures ReportOf([]) == ReconcileReport(0, 0, 0, 0, [])
  {
  }

  lemma CountSnoc(entries: seq<ReconcileEntry>, entry: ReconcileEntry)
    ensures forall disposition ::
      CountOf(entries + [entry], disposition) == CountOf(entries, disposition) + One(entry.disposition == disposition)
  {
    forall disposition
      ensures CountOf(entries + [entry], disposition) == CountOf(entries, disposition) + One(entry.disposition == disposition)
    {
      FilterAppend(entries, [entry], (e: ReconcileEntry) => e.disposition == disposition);
    }
  }

  lemma ListenerKeepsKeys(d: D.DaemonState, localReason: Option<string>, w: World, id: string, now: nat, t: ListenerTally)
    requires id in w.listeners
    ensures ListenerOne(d, localReason, w, id, now, t).0.listeners.Keys == w.listeners.Keys
  {
  }
}
