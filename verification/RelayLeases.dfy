/**
 Conservation of relay sessions. A live record on a relay path holds a lease: the control endpoint
 of the relay and the id of the session there. The relay sessions open on behalf of this adapter
 are compared with the leases its live records hold, step by step and over whole runs, including
 the double close of a migration, other users of the relays and relays that cannot be reached.
 */
module RelayLeases {
  import opened Model
  import opened RelayWire
  import opened Transport

  type Lease = (Endpoint, SessionId)

  function LeaseOf(session: SessionSnapshot): set<Lease> {
    if session.pathKind == Relay && session.relayControlEndpoint.Some? then
      {(session.relayControlEndpoint.value, session.transportSessionId)}
    else {}
  }

  ghost function HeldIn(sessions: map<SessionId, SessionSnapshot>): set<Lease> {
    set id, lease | id in sessions && lease in LeaseOf(sessions[id]) :: lease
  }

  ghost function OpenIn(relays: Relays, local: PeerId): set<Lease> {
    set e, id | e in relays && id in OpenIds(relays[e].table, local) :: (e, id)
  }

  ghost function Held(w: World): set<Lease> { HeldIn(w.sessions) }

  ghost function OpenFor(w: World, local: PeerId): set<Lease> { OpenIn(w.relays, local) }

  /** Relay sessions that are open for this adapter although no live record holds them. */
  ghost function Leaked(w: World, local: PeerId): set<Lease> { OpenFor(w, local) - Held(w) }

  predicate Known(relays: Relays, lease: Lease) {
    lease.0 in relays && lease.1 in relays[lease.0].table
  }

  /** Records sit at their own id, relay records name their relay, and no lease has two holders. */
  ghost predicate Keyed(sessions: map<SessionId, SessionSnapshot>) {
    && (forall id :: id in sessions ==> sessions[id].sessionId == id)
    && (forall id :: id in sessions && sessions[id].pathKind == Relay ==> sessions[id].relayControlEndpoint.Some?)
    && (forall a, b :: a in sessions && b in sessions && a != b ==> LeaseOf(sessions[a]) !! LeaseOf(sessions[b]))
  }

  ghost predicate Sound(w: World, local: PeerId) {
    Keyed(w.sessions) && Held(w) <= OpenFor(w, local)
  }

  // ---------------------------------------------------------------- the relay side

  lemma OpenAddsLease(relays: Relays, down: set<Endpoint>, endpoint: Endpoint, request: RelayOpenRequest,
                      freshId: SessionId)
    requires endpoint in relays ==> request.attemptId !in relays[endpoint].table
    ensures var (after, outcome) := OpenAt(relays, down, endpoint, request, freshId);
            && (outcome.Err? ==> after == relays)
            && (outcome.Ok? ==>
                 && outcome.value.sessionId == freshId
                 && OpenIn(after, request.source) == OpenIn(relays, request.source) + {(endpoint, freshId)}
                 && (endpoint, freshId) !in OpenIn(relays, request.source)
                 && (forall lease :: Known(relays, lease) ==> Known(after, lease))
                 && !Known(relays, (endpoint, freshId)))
  {
    var (after, outcome) := OpenAt(relays, down, endpoint, request, freshId);
    if outcome.Ok? {
      var table, table' := relays[endpoint].table, after[endpoint].table;
      var accepted := AcceptedReply(request, freshId);
      assert table' == table[request.attemptId := PendingRecord(request)][freshId := OpenRecord(accepted)];
      assert OpenIds(table', request.source) == OpenIds(table, request.source) + {freshId};
      forall e | e in relays && e != endpoint
        ensures after[e] == relays[e]
      {
      }
      assert OpenIn(after, request.source) == OpenIn(relays, request.source) + {(endpoint, freshId)};
    }
  }

  lemma CloseRemovesLease(relays: Relays, down: set<Endpoint>, lease: Lease, local: PeerId)
    requires Known(relays, lease)
    ensures var (after, outcome) := CloseAt(relays, down, Some(lease.0), lease.1);
            && (outcome.Ok? <==> lease.0 !in down)
            && (outcome.Err? ==> after == relays)
            && (outcome.Ok? ==> OpenIn(after, local) == OpenIn(relays, local) - {lease})
            && (forall other :: Known(relays, other) ==> Known(after, other))
  {
    var (after, outcome) := CloseAt(relays, down, Some(lease.0), lease.1);
    if outcome.Ok? {
      var table, table' := relays[lease.0].table, after[lease.0].table;
      assert OpenIds(table', local) == OpenIds(table, local) - {lease.1};
      forall e | e in relays && e != lease.0
        ensures after[e] == relays[e]
      {
      }
      assert OpenIn(after, local) == OpenIn(relays, local) - {lease};
    }
  }

  lemma OpenIsKnown(relays: Relays, local: PeerId)
    ensures forall lease :: lease in OpenIn(relays, local) ==> Known(relays, lease)
  {
  }

  // ---------------------------------------------------------------- the registry side

  lemma HeldWithout(sessions: map<SessionId, SessionSnapshot>, id: SessionId)
    requires Keyed(sessions)
    ensures Keyed(sessions - {id})
    ensures id in sessions ==>
      HeldIn(sessions - {id}) == HeldIn(sessions) - LeaseOf(sessions[id]) && LeaseOf(sessions[id]) <= HeldIn(sessions)
    ensures id !in sessions ==> HeldIn(sessions - {id}) == HeldIn(sessions)
  {
    var rest := sessions - {id};
    assert forall k :: k in rest ==> rest[k] == sessions[k];
    if id !in sessions {
      assert rest == sessions;
    }
  }

  lemma HeldWith(sessions: map<SessionId, SessionSnapshot>, session: SessionSnapshot)
    requires Keyed(sessions)
    requires session.pathKind == Relay ==> session.relayControlEndpoint.Some?
    requires LeaseOf(session) !! HeldIn(sessions - {session.sessionId})
    ensures var after := sessions[session.sessionId := session];
            && Keyed(after)
            && HeldIn(after) == HeldIn(sessions - {session.sessionId}) + LeaseOf(session)
  {
    var id := session.sessionId;
    var rest, after := sessions - {id}, sessions[id := session];
    assert forall k :: k in after && k != id ==> k in rest && rest[k] == after[k];
    forall k | k in after && k != id
      ensures LeaseOf(after[k]) !! LeaseOf(session)
    {
      assert LeaseOf(rest[k]) <= HeldIn(rest);
    }
    assert after[id] == session;
    assert HeldIn(after) == HeldIn(rest) + LeaseOf(session);
  }

  ghost predicate SameLease(a: SessionSnapshot, b: SessionSnapshot) {
    && a.sessionId == b.sessionId && a.pathKind == b.pathKind
    && a.relayControlEndpoint == b.relayControlEndpoint && a.transportSessionId == b.transportSessionId
  }

  lemma SameLeases(before: map<SessionId, SessionSnapshot>, after: map<SessionId, SessionSnapshot>)
    requires Keyed(before) && before.Keys == after.Keys
    requires forall id :: id in before ==> SameLease(before[id], after[id])
    ensures Keyed(after) && HeldIn(after) == HeldIn(before)
  {
    assert forall id :: id in before ==> LeaseOf(after[id]) == LeaseOf(before[id]);
  }

  /** Leases depend only on the fields that a state update leaves alone. */
  lemma UpdateKeepsLeases(w: World, id: SessionId, state: RuntimeSessionState,
                          closureReason: Option<SessionClosureReason>, stateReason: Option<string>, now: nat)
    requires Keyed(w.sessions)
    ensures var after := UpdateSessionState(w, id, state, closureReason, stateReason, now);
            && Keyed(after.sessions) && Held(after) == Held(w)
            && after.relays == w.relays && after.down == w.down && after.sessions.Keys == w.sessions.Keys
            && (id in w.sessions ==> SameLease(w.sessions[id], after.sessions[id]))
            && after.sessions - {id} == w.sessions - {id}
  {
    hide Keyed, HeldIn;
    var after := UpdateSessionState(w, id, state, closureReason, stateReason, now);
    SameLeases(w.sessions, after.sessions);
  }

  // ---------------------------------------------------------------- adapter operations

  /** Replacing the record at `id` by `session` must close a relay session that cannot be reached. */
  predicate Blocked(w: World, id: SessionId, session: SessionSnapshot) {
    && id in w.sessions && ReleasesRelay(w.sessions[id], session)
    && w.sessions[id].relayControlEndpoint.Some? && w.sessions[id].relayControlEndpoint.value in w.down
  }

  ghost function GivenUp(w: World, id: SessionId, session: SessionSnapshot): set<Lease> {
    if id in w.sessions && ReleasesRelay(w.sessions[id], session) then LeaseOf(w.sessions[id]) else {}
  }

  /** A route carries a relay plan exactly when its path is a relay path. */
  predicate RouteShaped(route: RoutePlan) {
    route.relay.Some? <==> route.pathKind == Relay
  }

  /** The attempt id drawn for the request names no session at the relay. */
  predicate FreshAttempt(w: World, route: RoutePlan, inputs: Inputs) {
    route.relay.Some? && route.relay.value.relayControlEndpoint in w.relays ==>
      inputs.attemptId !in w.relays[route.relay.value.relayControlEndpoint].table
  }

  lemma SnapshotTakesLease(cfg: Config, w: World, local: PeerId, route: RoutePlan, inputs: Inputs)
    requires cfg.localIdentity == Some(local) && RouteShaped(route) && FreshAttempt(w, route, inputs)
    ensures var (after, outcome) := SnapshotForRoute(cfg, w, route, inputs);
            && after == w.(relays := after.relays)
            && (outcome.Err? ==> after == w)
            && (outcome.Ok? ==>
                 && outcome.value.sessionId == LogicalSessionId(cfg, route)
                 && (outcome.value.pathKind == Relay ==> outcome.value.relayControlEndpoint.Some?)
                 && OpenFor(after, local) == OpenFor(w, local) + LeaseOf(outcome.value)
                 && (forall lease :: lease in LeaseOf(outcome.value) ==> !Known(w.relays, lease))
                 && (forall lease :: Known(w.relays, lease) ==> Known(after.relays, lease)))
  {
    if route.relay.Some? {
      OpenAddsLease(w.relays, w.down, route.relay.value.relayControlEndpoint, RequestFor(route, inputs),
                    inputs.relaySessionId);
    }
    hide OpenIn, OpenAt;
  }

  lemma UpsertMovesLease(w: World, local: PeerId, session: SessionSnapshot, now: nat)
    requires Keyed(w.sessions)
    requires session.pathKind == Relay ==> session.relayControlEndpoint.Some?
    requires LeaseOf(session) !! HeldIn(w.sessions - {session.sessionId})
    requires forall lease :: lease in GivenUp(w, session.sessionId, session) ==> Known(w.relays, lease)
    ensures var (after, outcome) := Upsert(w, session, now);
            && Keyed(after.sessions) && after.sessions == w.sessions[session.sessionId := session]
            && after.down == w.down
            && Held(after) == HeldIn(w.sessions - {session.sessionId}) + LeaseOf(session)
            && (outcome.Ok? <==> !Blocked(w, session.sessionId, session))
            && OpenFor(after, local) ==
                 OpenFor(w, local) - (if outcome.Ok? then GivenUp(w, session.sessionId, session) else {})
  {
    HeldWith(w.sessions, session);
    var id := session.sessionId;
    if id in w.sessions && ReleasesRelay(w.sessions[id], session) {
      var previous := w.sessions[id];
      var lease := (previous.relayControlEndpoint.value, previous.transportSessionId);
      assert lease in GivenUp(w, id, session);
      CloseRemovesLease(w.relays, w.down, lease, local);
    }
    hide Keyed, HeldIn, OpenIn, CloseAt, Known;
  }

  /** The relay sessions that a connect leaves open without a holder: only when a close is blocked. */
  ghost function ConnectLeak(cfg: Config, w: World, route: RoutePlan, inputs: Inputs): set<Lease> {
    var outcome := SnapshotForRoute(cfg, w, route, inputs).1;
    if FindSuppression(w.suppressions, RouteKey(route)).Some? || outcome.Err? then {}
    else
      var id := outcome.value.sessionId;
      if Blocked(w, id, outcome.value) then LeaseOf(w.sessions[id]) else {}
  }

  /** A record that keeps its lease across a replacement already holds the new record's lease. */
  lemma NotReleased(w: World, id: SessionId, session: SessionSnapshot)
    requires Keyed(w.sessions) && id in w.sessions && !ReleasesRelay(w.sessions[id], session)
    ensures LeaseOf(w.sessions[id]) == {} || LeaseOf(w.sessions[id]) == LeaseOf(session)
  {
  }

  lemma ConnectConserves(cfg: Config, w: World, local: PeerId, route: RoutePlan, inputs: Inputs)
    requires cfg.localIdentity == Some(local) && RouteShaped(route) && FreshAttempt(w, route, inputs)
    requires Sound(w, local)
    ensures var after := Connect(cfg, w, route, inputs).0;
            Sound(after, local) && Leaked(after, local) == Leaked(w, local) + ConnectLeak(cfg, w, route, inputs)
  {
    hide SnapshotForRoute, Upsert, Keyed, HeldIn, OpenIn, LogicalSessionId, Blocked, LeaseOf, ReleasesRelay;
    if FindSuppression(w.suppressions, RouteKey(route)).None? {
      SnapshotTakesLease(cfg, w, local, route, inputs);
      var (dialed, outcome) := SnapshotForRoute(cfg, w, route, inputs);
      if outcome.Ok? {
        StoreConserves(w, dialed, local, outcome.value, inputs.now);
      }
    }
  }

  /** Storing a session that has just taken a new lease. */
  lemma StoreConserves(w: World, dialed: World, local: PeerId, session: SessionSnapshot, now: nat)
    requires Sound(w, local) && dialed == w.(relays := dialed.relays)
    requires session.pathKind == Relay ==> session.relayControlEndpoint.Some?
    requires OpenFor(dialed, local) == OpenFor(w, local) + LeaseOf(session)
    requires forall lease :: lease in LeaseOf(session) ==> !Known(w.relays, lease)
    requires forall lease :: Known(w.relays, lease) ==> Known(dialed.relays, lease)
    ensures var after := Upsert(dialed, session, now).0;
            var id := session.sessionId;
            && Sound(after, local)
            && Leaked(after, local) ==
                 Leaked(w, local) + (if Blocked(w, id, session) then LeaseOf(w.sessions[id]) else {})
  {
    hide Upsert, HeldIn, OpenIn, Keyed, LeaseOf;
    var id := session.sessionId;
    OpenIsKnown(w.relays, local);
    HeldWithout(w.sessions, id);
    assert LeaseOf(session) !! Held(w);
    UpsertMovesLease(dialed, local, session, now);
    if id in w.sessions {
      if !ReleasesRelay(w.sessions[id], session) {
        NotReleased(w, id, session);
      }
      assert GivenUp(dialed, id, session) == GivenUp(w, id, session);
    }
  }

  function MigratedSession(session: SessionSnapshot, existing: SessionSnapshot, now: nat): SessionSnapshot {
    session.(sessionId := existing.sessionId, createdAt := existing.createdAt, lastActivity := now)
  }

  /** A migration whose first close is blocked leaves the session it has just opened. */
  ghost function MigrateLeak(cfg: Config, w: World, id: SessionId, route: RoutePlan, inputs: Inputs): set<Lease> {
    var outcome := SnapshotForRoute(cfg, w, route, inputs).1;
    if id !in w.sessions || outcome.Err? then {}
    else if Blocked(w, id, outcome.value) then LeaseOf(outcome.value)
    else {}
  }

  /** The two closes of a migration, after its new session has taken a new lease. */
  lemma DoubleCloseConserves(w: World, dialed: World, local: PeerId, id: SessionId, migrated: SessionSnapshot, now: nat)
    requires Sound(w, local) && dialed == w.(relays := dialed.relays)
    requires id in w.sessions && migrated.sessionId == id
    requires migrated.pathKind == Relay ==> migrated.relayControlEndpoint.Some?
    requires OpenFor(dialed, local) == OpenFor(w, local) + LeaseOf(migrated)
    requires forall lease :: lease in LeaseOf(migrated) ==> !Known(w.relays, lease)
    requires forall lease :: Known(w.relays, lease) ==> Known(dialed.relays, lease)
    requires ReleasesRelay(w.sessions[id], migrated)
    ensures var existing := w.sessions[id];
            var (released, closed) := RelayClose(dialed, existing.relayControlEndpoint, existing.transportSessionId);
            && (closed.Err? <==> Blocked(w, id, migrated))
            && (closed.Err? ==> released == dialed)
            && (closed.Ok? ==>
                 var (after, outcome) := Upsert(released, migrated, now);
                 outcome.Ok? && Sound(after, local) && Leaked(after, local) == Leaked(w, local))
  {
    var existing := w.sessions[id];
    assert existing.relayControlEndpoint.Some?;
    var lease := (existing.relayControlEndpoint.value, existing.transportSessionId);
    assert LeaseOf(existing) == {lease};
    hide Upsert, HeldIn, OpenIn, Keyed, LeaseOf, CloseAt;
    OpenIsKnown(w.relays, local);
    HeldWithout(w.sessions, id);
    assert LeaseOf(migrated) !! Held(w);
    assert Known(dialed.relays, lease);
    CloseRemovesLease(dialed.relays, dialed.down, lease, local);
    var (released, closed) := RelayClose(dialed, existing.relayControlEndpoint, existing.transportSessionId);
    if closed.Ok? {
      assert Known(released.relays, lease);
      UpsertMovesLease(released, local, migrated, now);
      assert GivenUp(released, id, migrated) == {lease};
    }
  }

  lemma RecordAt(sessions: map<SessionId, SessionSnapshot>, id: SessionId)
    requires Keyed(sessions) && id in sessions
    ensures sessions[id].sessionId == id
    ensures sessions[id].pathKind == Relay ==> sessions[id].relayControlEndpoint.Some?
    ensures LeaseOf(sessions[id]) ==
            if sessions[id].pathKind == Relay
            then {(sessions[id].relayControlEndpoint.value, sessions[id].transportSessionId)} else {}
  {
  }

  /** Keeping id and creation time of the record replaced, or marking that record, changes no lease. */
  lemma SameReplacement(original: SessionSnapshot, existing: SessionSnapshot, session: SessionSnapshot, now: nat)
    requires SameLease(original, existing)
    ensures LeaseOf(MigratedSession(session, existing, now)) == LeaseOf(session)
    ensures ReleasesRelay(existing, MigratedSession(session, existing, now)) <==> ReleasesRelay(original, session)
  {
  }

  lemma MigrateConserves(cfg: Config, w: World, local: PeerId, id: SessionId, route: RoutePlan, inputs: Inputs)
    requires cfg.localIdentity == Some(local) && RouteShaped(route) && FreshAttempt(w, route, inputs)
    requires Sound(w, local)
    ensures var after := Migrate(cfg, w, id, route, inputs).0;
            Sound(after, local) && Leaked(after, local) == Leaked(w, local) + MigrateLeak(cfg, w, id, route, inputs)
  {
    hide SnapshotForRoute, UpdateSessionState, Upsert, HeldIn, OpenIn, Keyed, LeaseOf, CloseAt, ReleasesRelay, PushEvent;
    var reason := Some("daemon requested path migration");
    var marked := UpdateSessionState(w, id, Migrating, None, reason, inputs.now);
    UpdateKeepsLeases(w, id, Migrating, None, reason, inputs.now);
    if id in w.sessions {
      var existing := marked.sessions[id];
      RecordAt(marked.sessions, id);
      OpenIsKnown(w.relays, local);
      SnapshotTakesLease(cfg, marked, local, route, inputs);
      SnapshotIgnoresRegistry(cfg, w, marked, route, inputs);
      var (dialed, outcome) := SnapshotForRoute(cfg, marked, route, inputs);
      if outcome.Ok? {
        var migrated := MigratedSession(outcome.value, existing, inputs.now);
        SameReplacement(w.sessions[id], existing, outcome.value, inputs.now);
        if ReleasesRelay(existing, migrated) {
          DoubleCloseConserves(marked, dialed, local, id, migrated, inputs.now);
        } else {
          StoreConserves(marked, dialed, local, migrated, inputs.now);
          UpsertMovesNothing(dialed, migrated, inputs.now);
        }
      }
    }
  }

  lemma UpsertMovesNothing(w: World, session: SessionSnapshot, now: nat)
    requires session.sessionId in w.sessions ==> !ReleasesRelay(w.sessions[session.sessionId], session)
    ensures Upsert(w, session, now).1.Ok?
  {
  }

  /** Opening a session for a route looks at the relays, not at the registry. */
  lemma SnapshotIgnoresRegistry(cfg: Config, a: World, b: World, route: RoutePlan, inputs: Inputs)
    requires a.relays == b.relays && a.down == b.down
    ensures SnapshotForRoute(cfg, a, route, inputs).1 == SnapshotForRoute(cfg, b, route, inputs).1
  {
  }

  ghost function CloseLeak(w: World, session: SessionSnapshot): set<Lease> {
    var id := session.sessionId;
    if id in w.sessions then set lease | lease in LeaseOf(w.sessions[id]) && lease.0 in w.down else {}
  }

  lemma CloseConserves(w: World, local: PeerId, session: SessionSnapshot, now: nat)
    requires Sound(w, local)
    ensures var after := CloseRuntimeSession(w, session, now).0;
            Sound(after, local) && Leaked(after, local) == Leaked(w, local) + CloseLeak(w, session)
  {
    hide UpdateSessionState, HeldIn, OpenIn, Keyed, CloseAt, LeaseOf, PushEvent, PushTerminal, OrElse;
    var id := session.sessionId;
    if id in w.sessions {
      var existing := w.sessions[id];
      var reason, text := OrElse(existing.closureReason, session.closureReason),
                          OrElse(existing.stateReason, session.stateReason);
      UpdateKeepsLeases(w, id, Closing, reason, text, now);
      var closing := UpdateSessionState(w, id, Closing, reason, text, now);
      HeldWithout(closing.sessions, id);
      OpenIsKnown(w.relays, local);
      RecordAt(w.sessions, id);
      RecordAt(closing.sessions, id);
      if existing.pathKind == Relay {
        CloseRemovesLease(w.relays, w.down, (existing.relayControlEndpoint.value, existing.transportSessionId), local);
      }
    }
  }
}
