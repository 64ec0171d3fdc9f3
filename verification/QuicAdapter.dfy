/**
 The adapter of crates/quic as a class whose methods update its registries in place, and the
 registry of relay services it calls. Each method is proved against the function of the same
 meaning in `Transport`.
 */
module QuicAdapter {
  import opened Model
  import opened RelayWire
  import opened Transport
  import opened Ledger

  class RelayRegistry {
    const services: map<Endpoint, RelayService>
    var down: set<Endpoint>

    /** No two endpoints share a session table. */
    ghost predicate Valid() {
      forall a, b :: a in services && b in services && services[a].runtime == services[b].runtime ==> a == b
    }

    ghost function Runtimes(): set<object> {
      set e | e in services :: services[e].runtime
    }

    ghost function Servers(): Relays
      reads Runtimes()
    {
      map e | e in services :: RelayServer(services[e].node, services[e].Table())
    }

    method OpenSession(endpoint: Endpoint, request: RelayOpenRequest, freshId: SessionId)
      returns (outcome: Result<RelaySessionAccepted, TransportError>)
      requires Valid()
      modifies Runtimes()
      ensures (Servers(), outcome) == OpenAt(old(Servers()), down, endpoint, request, freshId)
    {
      if endpoint !in services || endpoint in down {
        return Err(RelayRejected);
      }
      var service := services[endpoint];
      assert service.runtime in Runtimes();
      var reply := service.Open(request, freshId);
      match reply {
        case Err(_) => outcome := Err(RelayRejected);
        case Ok(accepted) => outcome := Ok(accepted);
      }
      assert Servers() == old(Servers())[endpoint := RelayServer(service.node, service.Table())];
      assert outcome.Err? ==> Servers() == old(Servers());
    }

    method CloseSession(endpoint: Option<Endpoint>, id: SessionId) returns (outcome: Result<(), TransportError>)
      requires Valid()
      modifies Runtimes()
      ensures (Servers(), outcome) == CloseAt(old(Servers()), down, endpoint, id)
    {
      if endpoint.None? {
        return Err(InvalidRoute);
      }
      if endpoint.value !in services || endpoint.value in down {
        return Err(RelayRejected);
      }
      var service := services[endpoint.value];
      assert service.runtime in Runtimes();
      var reply := service.Close(id);
      outcome := if reply.Err? then Err(RelayRejected) else Ok(());
      assert Servers() == old(Servers())[endpoint.value := RelayServer(service.node, service.Table())];
      assert outcome.Err? ==> Servers() == old(Servers());
    }
  }

  // ---------------------------------------------------------------- list updates

  /** Drops elements from the front until at most `n` are left. */
  method PopFront<T>(s: seq<T>, n: nat) returns (rest: seq<T>)
    ensures rest == LastN(s, n)
  {
    rest := s;
    while |rest| > n
      invariant |rest| <= |s| && rest == s[|s| - |rest|..]
      invariant |rest| >= Min(|s|, n)
    {
      rest := rest[1..];
    }
  }

  class QuicTransportAdapter {
    const cfg: Config
    const control: RelayRegistry
    var sessions: map<SessionId, SessionSnapshot>
    var terminal: seq<SessionSnapshot>
    var listeners: map<string, ListenerSnapshot>
    var events: seq<RuntimeEvent>
    var suppressions: seq<ReconnectSuppression>
    var attempts: seq<ReconnectAttempt>

    /** Everything that was ever closed or emitted; the bounded buffers are views of these. */
    ghost var closedHistory: seq<SessionSnapshot>
    ghost var eventHistory: seq<RuntimeEvent>

    ghost predicate Valid()
      reads this
    {
      && control.Valid()
      && (forall id :: id in sessions ==> sessions[id].sessionId == id)
      && terminal == LedgerOf(closedHistory)
      && events == LastN(eventHistory, MAX_EVENTS)
    }

    ghost function View(): World
      reads this, control, control.Runtimes()
    {
      World(sessions, terminal, listeners, events, suppressions, attempts, control.Servers(), control.down)
    }

    constructor (cfg: Config, control: RelayRegistry)
      requires control.Valid()
      ensures this.cfg == cfg && this.control == control && Valid()
      ensures View() == World(map[], [], map[], [], [], [], control.Servers(), control.down)
    {
      this.cfg := cfg;
      this.control := control;
      sessions, terminal, listeners := map[], [], map[];
      events, suppressions, attempts := [], [], [];
      closedHistory, eventHistory := [], [];
    }

    // -------------------------------------------------------------- buffers

    method EmitRuntimeEvent(eventType: string, kind: string, id: string, now: nat)
      requires Valid()
      modifies this`events, this`eventHistory
      ensures Valid() && View() == Emit(old(View()), eventType, kind, id, now)
      ensures eventHistory == old(eventHistory) + [RuntimeEvent(eventType, kind, id, now)]
    {
      var event := RuntimeEvent(eventType, kind, id, now);
      PushEventRefines(eventHistory, event);
      eventHistory := eventHistory + [event];
      events := PopFront(events + [event], MAX_EVENTS);
    }

    method RecordTerminalSession(session: SessionSnapshot)
      requires Valid()
      modifies this`terminal, this`closedHistory
      ensures Valid() && View() == old(View()).(terminal := PushTerminal(old(terminal), session))
      ensures closedHistory == old(closedHistory) + [session]
    {
      var kept := Retain(terminal, (e: SessionSnapshot) => e.sessionId != session.sessionId);
      PushTerminalRefines(closedHistory, session);
      closedHistory := closedHistory + [session];
      terminal := PopFront(kept + [session], MAX_TERMINAL_SESSIONS);
    }

    /** The newest events, oldest first, with at least one when any was ever emitted. */
    method RecentEvents(limit: nat) returns (recent: seq<RuntimeEvent>)
      requires Valid()
      ensures recent == Transport.RecentEvents(events, limit)
      ensures var wanted := Min(if limit >= 1 then limit else 1, Min(|eventHistory|, MAX_EVENTS));
              recent == eventHistory[|eventHistory| - wanted..]
    {
      var wanted := if limit >= 1 then limit else 1;
      var count := if wanted <= |events| then wanted else |events|;
      recent := [];
      while |recent| < count
        invariant |recent| <= count && recent == events[|events| - |recent|..]
      {
        recent := [events[|events| - 1 - |recent|]] + recent;
      }
      RecentEventsOfHistory(eventHistory, limit);
    }

    // -------------------------------------------------------------- sessions

    method SessionForRoute(route: RoutePlan, inputs: Inputs)
      returns (outcome: Result<SessionSnapshot, TransportError>)
      requires Valid()
      modifies control.Runtimes()
      ensures Valid() && (View(), outcome) == SnapshotForRoute(cfg, old(View()), route, inputs)
    {
      if route.relay.None? {
        return DirectSnapshot(cfg, route, inputs.now);
      }
      var plan := route.relay.value;
      if cfg.networkId.None? || !OwnsRoute(cfg, route) || plan.relayEndpoints == [] {
        return Err(InvalidRoute);
      }
      var reply := control.OpenSession(plan.relayControlEndpoint, RequestFor(route, inputs),
                                       inputs.relaySessionId);
      match reply {
        case Err(error) => outcome := Err(error);
        case Ok(accepted) => outcome := Ok(RelayedSession(cfg, route, plan, accepted, inputs.now));
      }
    }

    method UpsertRuntimeSession(session: SessionSnapshot, now: nat) returns (outcome: Result<(), TransportError>)
      requires Valid()
      modifies this, control.Runtimes()
      ensures Valid() && (View(), outcome) == Upsert(old(View()), session, now)
      ensures old(eventHistory) <= eventHistory && old(closedHistory) == closedHistory
    {
      hide CloseAt, ReleasesRelay, PushEvent, LedgerOf;
      var id := session.sessionId;
      var existed := id in sessions;
      var previous := if existed then sessions[id] else session;
      sessions := sessions[id := session];
      if existed {
        if ReleasesRelay(previous, session) {
          var closed := control.CloseSession(previous.relayControlEndpoint, previous.transportSessionId);
          if closed.Err? {
            return closed;
          }
        }
        EmitRuntimeEvent("session.state_changed", "session", id, now);
      } else {
        EmitRuntimeEvent("session.created", "session", id, now);
        EmitRuntimeEvent("path.selected", "session", id, now);
      }
      outcome := Ok(());
    }

    method Connect(route: RoutePlan, inputs: Inputs) returns (outcome: Result<SessionSnapshot, TransportError>)
      requires Valid()
      modifies this, control.Runtimes()
      ensures Valid() && (View(), outcome) == Transport.Connect(cfg, old(View()), route, inputs)
      ensures old(eventHistory) <= eventHistory && old(closedHistory) == closedHistory
    {
      var suppression := FindSuppression(suppressions, RouteKey(route));
      if suppression.Some? {
        EmitRuntimeEvent("reconnect.suppressed", "peer", route.peer, inputs.now);
        return Err(PolicyDenied("reconnect suppressed: " + suppression.value.reason));
      }
      outcome := SessionForRoute(route, inputs);
      if outcome.Ok? {
        var stored := UpsertRuntimeSession(outcome.value, inputs.now);
        if stored.Err? {
          outcome := Err(stored.error);
        }
      }
    }

    method UpdateSessionState(id: SessionId, state: RuntimeSessionState,
                              closureReason: Option<SessionClosureReason>, stateReason: Option<string>, now: nat)
      requires Valid()
      modifies this
      ensures Valid()
      ensures View() == Transport.UpdateSessionState(old(View()), id, state, closureReason, stateReason, now)
      ensures old(eventHistory) <= eventHistory && old(closedHistory) == closedHistory
    {
      if id !in sessions {
        return;
      }
      sessions := sessions[id := sessions[id].(state := state, closureReason := closureReason,
                                               stateReason := stateReason, lastActivity := now)];
      EmitRuntimeEvent(StateEvent(state), "session", id, now);
    }

    method Migrate(id: SessionId, route: RoutePlan, inputs: Inputs)
      returns (outcome: Result<SessionSnapshot, TransportError>)
      requires Valid()
      modifies this, control.Runtimes()
      ensures Valid() && (View(), outcome) == Transport.Migrate(cfg, old(View()), id, route, inputs)
      ensures old(eventHistory) <= eventHistory && old(closedHistory) == closedHistory
    {
      hide Transport.UpdateSessionState, SnapshotForRoute, Upsert, CloseAt, ReleasesRelay, PushEvent, LedgerOf;
      UpdateSessionState(id, Migrating, None, Some("daemon requested path migration"), inputs.now);
      if id !in sessions {
        return Err(InvalidRoute);
      }
      var existing := sessions[id];
      outcome := SessionForRoute(route, inputs);
      if outcome.Err? {
        return;
      }
      var migrated := outcome.value.(sessionId := existing.sessionId, createdAt := existing.createdAt,
                                     lastActivity := inputs.now);
      if ReleasesRelay(existing, migrated) {
        var closed := control.CloseSession(existing.relayControlEndpoint, existing.transportSessionId);
        if closed.Err? {
          return Err(closed.error);
        }
      }
      var stored := UpsertRuntimeSession(migrated, inputs.now);
      if stored.Err? {
        return Err(stored.error);
      }
      EmitRuntimeEvent("path.migration_completed", "session", migrated.sessionId, inputs.now);
      outcome := Ok(migrated);
    }

    method RemoveRuntimeSession(id: SessionId) returns (removed: Option<SessionSnapshot>)
      requires Valid()
      modifies this`sessions
      ensures Valid() && View() == old(View()).(sessions := old(sessions) - {id})
      ensures removed == if id in old(sessions) then Some(old(sessions)[id]) else None
    {
      removed := if id in sessions then Some(sessions[id]) else None;
      sessions := sessions - {id};
    }

    /** The end of a close: the final record goes to the ledger, then the event. */
    method RecordClosed(final: SessionSnapshot, now: nat)
      requires Valid()
      modifies this
      ensures Valid()
      ensures View() == Emit(old(View()).(terminal := PushTerminal(old(terminal), final)),
                             "session.closed", "session", final.sessionId, now)
      ensures old(eventHistory) <= eventHistory && closedHistory == old(closedHistory) + [final]
    {
      hide LedgerOf, PushTerminal, PushEvent, LastN;
      RecordTerminalSession(final);
      EmitRuntimeEvent("session.closed", "session", final.sessionId, now);
    }

    method CloseSession(session: SessionSnapshot, now: nat) returns (outcome: Result<(), TransportError>)
      requires Valid()
      modifies this, control.Runtimes()
      ensures Valid() && (View(), outcome) == CloseRuntimeSession(old(View()), session, now)
      ensures old(eventHistory) <= eventHistory && old(closedHistory) <= closedHistory
    {
      var id := session.sessionId;
      if id !in sessions {
        return Ok(());
      }
      hide LedgerOf, PushTerminal, PushEvent, LastN, CloseAt, OrElse;
      var existing := sessions[id];
      UpdateSessionState(id, Closing, OrElse(existing.closureReason, session.closureReason),
                         OrElse(existing.stateReason, session.stateReason), now);
      var removed := RemoveRuntimeSession(id);
      var active := removed.value;
      if active.pathKind == Relay {
        outcome := control.CloseSession(active.relayControlEndpoint, active.transportSessionId);
        if outcome.Err? {
          return;
        }
      }
      RecordClosed(active.(state := Closed_, lastActivity := now), now);
      outcome := Ok(());
    }

    // -------------------------------------------------------------- suppressions and attempts

    method SuppressReconnect(key: SessionKey, reason: string, now: nat)
      requires Valid()
      modifies this
      ensures Valid() && View() == Transport.SuppressReconnect(old(View()), key, reason, now)
      ensures old(eventHistory) <= eventHistory && old(closedHistory) == closedHistory
    {
      suppressions := StoreWhere(suppressions, ReconnectSuppression(key, reason, now), (e: ReconnectSuppression) => e.key == key);
      EmitRuntimeEvent("reconnect.suppressed", "peer", key.peer, now);
    }

    method ClearReconnectSuppression(key: SessionKey, now: nat)
      requires Valid()
      modifies this
      ensures Valid() && View() == ClearSuppression(old(View()), key, now)
      ensures old(eventHistory) <= eventHistory && old(closedHistory) == closedHistory
    {
      hide FindSuppression, Filter, PushEvent, LedgerOf;
      var removed := FindSuppression(suppressions, key);
      suppressions := Retain(suppressions, (e: ReconnectSuppression) => e.key != key);
      if removed.Some? {
        EmitRuntimeEvent("reconnect.unsuppressed", "peer", key.peer, now);
      }
    }

    method ScheduleReconnect(key: SessionKey, reason: string, maxAttempts: nat, base: nat, maxBackoff: nat, now: nat)
      returns (attempt: ReconnectAttempt)
      requires Valid()
      modifies this
      ensures Valid()
      ensures (View(), attempt)
           == Transport.ScheduleReconnect(old(View()), key, reason, maxAttempts, base, maxBackoff, now)
      ensures old(eventHistory) <= eventHistory && old(closedHistory) == closedHistory
    {
      hide FindAttempt, PutWhere, PushEvent, LedgerOf, NextAttempt;
      ghost var before := View();
      attempt := NextAttempt(FindAttempt(attempts, key), key, reason, maxAttempts, base, maxBackoff, now);
      attempts := StoreWhere(attempts, attempt, (e: ReconnectAttempt) => e.key == attempt.key);
      assert View() == before.(attempts := PutAttempt(before.attempts, attempt));
      if attempt.state == AttemptFailed {
        EmitRuntimeEvent("reconnect.failed", "peer", key.peer, now);
        EmitRuntimeEvent("path.failed", "peer", key.peer, now);
      } else {
        EmitRuntimeEvent("reconnect.retry_scheduled", "peer", key.peer, now);
      }
    }

    method ClearReconnectAttempt(key: SessionKey, outcome: string, now: nat)
      requires Valid()
      modifies this
      ensures Valid() && View() == Transport.ClearReconnectAttempt(old(View()), key, outcome, now)
      ensures old(eventHistory) <= eventHistory && old(closedHistory) == closedHistory
    {
      hide FindAttempt, Filter, PushEvent, LedgerOf, ClearedEvent;
      var removed := FindAttempt(attempts, key);
      attempts := Retain(attempts, (e: ReconnectAttempt) => e.key != key);
      if removed.Some? {
        EmitRuntimeEvent(ClearedEvent(outcome), "peer", key.peer, now);
      }
    }

    // -------------------------------------------------------------- listeners and listings

    method Listen(listenerId: string, protocol: ProtocolId, advertise: bool, now: nat)
      requires Valid()
      modifies this`listeners
      ensures Valid() && View() == Transport.Listen(old(View()), listenerId, protocol, advertise, now)
    {
      listeners := listeners[listenerId :=
        ListenerSnapshot(listenerId, protocol, advertise, ListenerActive, None, now)];
    }

    method UpdateListenerState(id: string, state: ListenerState, reason: Option<string>)
      requires Valid()
      modifies this`listeners
      ensures Valid() && View() == UpdateListener(old(View()), id, state, reason)
    {
      if id in listeners {
        listeners := listeners[id := listeners[id].(state := state, stateReason := reason)];
      }
    }

    /** Every live session once; the order is left open. */
    method ActiveSessions() returns (order: seq<SessionSnapshot>)
      requires Valid()
      ensures Lists(order, sessions)
    {
      var ids := ListKeys(sessions.Keys);
      order := [];
      for i := 0 to |ids|
        invariant |order| == i
        invariant forall k :: 0 <= k < i ==> order[k] == sessions[ids[k]]
      {
        assert ids[i] in sessions.Keys;
        order := order + [sessions[ids[i]]];
      }
      assert forall k :: 0 <= k < |ids| ==> ids[k] in sessions.Keys && order[k].sessionId == ids[k];
      forall id | id in sessions ensures exists i :: 0 <= i < |order| && order[i].sessionId == id {
        assert id in ids;
        var i :| 0 <= i < |ids| && ids[i] == id;
        assert order[i].sessionId == id;
      }
    }

    method ActiveListenerIds() returns (order: seq<string>)
      ensures Enumerates(order, listeners.Keys)
    {
      order := ListKeys(listeners.Keys);
    }
  }

  method ListKeys(keys: set<string>) returns (order: seq<string>)
    ensures Enumerates(order, keys)
  {
    order := [];
    var pending := keys;
    while pending != {}
      invariant pending <= keys
      invariant Enumerates(order, keys - pending)
      decreases pending
    {
      var key :| key in pending;
      pending := pending - {key};
      order := order + [key];
    }
  }
}
