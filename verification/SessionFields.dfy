/**
 The transport's operations on the fields of the records they write: sessions opened, moved and closed,
 waits between attempts, and the names of the events.
 */
module SessionFields {
  import opened Model
  import opened RelayWire
  import opened Transport
  import RelayRuns
  import Texts

  // ---------------------------------------------------------------- sessions that are opened

  function ClassName(class_: TrafficClass): string {
    match class_
    case Control => "control"
    case Interactive => "interactive"
    case Bulk => "bulk"
    case Background => "background"
  }

  /** The new session serves the route's key from now on, under the id that is hashed from the instance and the key. */
  predicate Serves(cfg: Config, route: RoutePlan, session: SessionSnapshot, now: nat) {
    && session.sessionId == cfg.hash(cfg.runtimeInstanceId + route.localPeer + route.peer + ClassName(route.class_)
                                     + if route.protocol.Some? then route.protocol.value else "")
    && session.peer == route.peer && session.protocol == route.protocol && session.class_ == route.class_
    && session.pathKind == route.pathKind && session.source == route.source
    && session.state == Active && session.closureReason == None && session.stateReason == None
    && session.createdAt == now && session.lastActivity == now
  }

  /** A route without a relay: nothing but the identity and an endpoint is needed, and nothing is dialed. */
  lemma DirectOnFields(cfg: Config, w: World, route: RoutePlan, inputs: Inputs)
    requires route.relay.None?
    ensures var (after, outcome) := SnapshotForRoute(cfg, w, route, inputs);
            && after == w
            && (outcome == Err(InvalidRoute) <==> cfg.localIdentity != Some(route.localPeer))
            && (outcome == Err(NoRoute) <==> cfg.localIdentity == Some(route.localPeer) && route.remoteEndpoints == [])
            && (outcome.Ok? <==> cfg.localIdentity == Some(route.localPeer) && route.remoteEndpoints != [])
            && (outcome.Ok? ==>
                  var session := outcome.value;
                  && Serves(cfg, route, session, inputs.now)
                  && session.transportSessionId == session.sessionId && session.relayAttemptId == None
                  && session.remoteEndpoint == route.remoteEndpoints[0]
                  && session.relayPeer == None && session.relayEndpoint == None && session.relayControlEndpoint == None
                  && session.datagramsCapable == cfg.supportsDatagrams
                  && session.migrationCapable == cfg.supportsPathMigration)
  {
  }

  /** A route through a relay: when it opens, the relay holds an open record of exactly this session. */
  lemma RelayedOnFields(cfg: Config, w: World, route: RoutePlan, inputs: Inputs)
    requires route.relay.Some?
    ensures var (after, outcome) := SnapshotForRoute(cfg, w, route, inputs);
            var plan := route.relay.value;
            && after == w.(relays := after.relays)
            && (outcome == Err(InvalidRoute) <==>
                  cfg.networkId.None? || cfg.localIdentity != Some(route.localPeer) || plan.relayEndpoints == [])
            && (outcome.Err? ==> after == w && outcome.error in {InvalidRoute, RelayRejected})
            && (outcome.Ok? ==>
                  var session := outcome.value;
                  && Serves(cfg, route, session, inputs.now)
                  && session.transportSessionId == inputs.relaySessionId
                  && session.relayAttemptId == Some(inputs.attemptId)
                  && session.relayPeer == Some(plan.relayPeer) && session.relayEndpoint == Some(plan.relayEndpoints[0])
                  && session.relayControlEndpoint == Some(plan.relayControlEndpoint)
                  && (session.datagramsCapable <==> cfg.supportsDatagrams && plan.supportsDatagrams)
                  && (session.migrationCapable <==> cfg.supportsPathMigration && plan.supportsPathMigration)
                  && HoldsRecord(after, plan.relayControlEndpoint, inputs.relaySessionId, route))
  {
    var plan := route.relay.value;
    if plan.relayControlEndpoint in w.relays {
      var server := w.relays[plan.relayControlEndpoint];
      if OpenSession(server.node, server.table, RequestFor(route, inputs), inputs.relaySessionId).1.Ok? {
        RelayRuns.OpenRecordsRequest(server.node, server.table, RequestFor(route, inputs), inputs.relaySessionId);
      }
    }
    hide OpenSession;
  }

  /** The relay at the endpoint has the id open, from the route's local peer to its peer. */
  predicate HoldsRecord(w: World, endpoint: Endpoint, id: SessionId, route: RoutePlan) {
    && endpoint in w.relays && endpoint !in w.down && id in w.relays[endpoint].table
    && var record := w.relays[endpoint].table[id];
    && record.status == Open && record.source == route.localPeer && record.destination == route.peer
    && record.protocol == route.protocol && record.trafficClass == route.class_
  }

  /** Where a relayed session says its peer is. */
  lemma RelayedEndpointExactly(cfg: Config, w: World, route: RoutePlan, inputs: Inputs)
    requires route.relay.Some? && SnapshotForRoute(cfg, w, route, inputs).1.Ok?
    ensures var endpoint := SnapshotForRoute(cfg, w, route, inputs).1.value.remoteEndpoint;
            var destinations := route.relay.value.destinationEndpoints;
            && (destinations != [] ==> endpoint == destinations[0])
            && (destinations == [] && route.remoteEndpoints != [] ==> endpoint == route.remoteEndpoints[0])
            && (destinations == [] && route.remoteEndpoints == [] ==> endpoint == route.peer)
  {
    hide OpenAt;
  }

  // ---------------------------------------------------------------- connect, migrate, close

  lemma {:induction false} SuppressionExactly(suppressions: seq<ReconnectSuppression>, key: SessionKey)
    ensures FindSuppression(suppressions, key).Some? <==> exists s :: s in suppressions && s.key == key
    ensures FindSuppression(suppressions, key).Some? ==>
              FindSuppression(suppressions, key).value in suppressions && FindSuppression(suppressions, key).value.key == key
  {
    if suppressions != [] {
      SuppressionExactly(suppressions[1..], key);
      assert suppressions == [suppressions[0]] + suppressions[1..];
    }
  }

  /** A connect is refused by policy exactly when a suppression names the route's peer, protocol and class. */
  lemma ConnectRefusedExactly(cfg: Config, w: World, route: RoutePlan, inputs: Inputs)
    ensures var (after, outcome) := Connect(cfg, w, route, inputs);
            && ((outcome.Err? && outcome.error.PolicyDenied?) <==>
                  exists s :: s in w.suppressions && s.key == SessionKey(route.peer, route.protocol, route.class_))
            && (outcome.Err? && outcome.error.PolicyDenied? ==>
                  && after.sessions == w.sessions && after.relays == w.relays
                  && exists s :: && s in w.suppressions && s.key == SessionKey(route.peer, route.protocol, route.class_)
                                 && outcome.error.reason == "reconnect suppressed: " + s.reason)
            && (outcome.Ok? ==> outcome.value.sessionId in after.sessions
                                && after.sessions[outcome.value.sessionId] == outcome.value)
  {
    SuppressionExactly(w.suppressions, SessionKey(route.peer, route.protocol, route.class_));
    if route.relay.None? {
      DirectOnFields(cfg, w, route, inputs);
    } else {
      RelayedOnFields(cfg, w, route, inputs);
    }
    hide SnapshotForRoute, CloseAt, PushEvent, FindSuppression, ReleasesRelay, Serves, HoldsRecord;
  }

  /** When storing a session over another gives up the other's relay session: it had one, and the new one is not it. */
  lemma ReleasedExactly(w: World, session: SessionSnapshot, now: nat)
    requires session.sessionId in w.sessions
    ensures var previous := w.sessions[session.sessionId];
            var same := session.pathKind == Relay && session.transportSessionId == previous.transportSessionId
                        && session.relayControlEndpoint == previous.relayControlEndpoint;
            var (after, outcome) := Upsert(w, session, now);
            && after.sessions == w.sessions[session.sessionId := session]
            && (previous.pathKind != Relay || same ==> outcome == Ok(()) && after.relays == w.relays)
            && (previous.pathKind == Relay && !same ==> Released(w, after, previous, outcome))
  {
    hide PushEvent;
  }

  /** The relay session of the record is closed at its relay if that can be reached and knows it; nothing else changes. */
  predicate Released(w: World, after: World, previous: SessionSnapshot, outcome: Result<(), TransportError>) {
    var reachable := && previous.relayControlEndpoint.Some? && previous.relayControlEndpoint.value in w.relays
                     && previous.relayControlEndpoint.value !in w.down
                     && previous.transportSessionId in w.relays[previous.relayControlEndpoint.value].table;
    && (outcome.Ok? <==> reachable)
    && (outcome.Err? ==> after.relays == w.relays)
    && (outcome.Err? ==> outcome.error == if previous.relayControlEndpoint.None? then InvalidRoute else RelayRejected)
    && (reachable ==>
          var endpoint, id := previous.relayControlEndpoint.value, previous.transportSessionId;
          var table := w.relays[endpoint].table;
          after.relays == w.relays[endpoint := w.relays[endpoint].(table := table[id := table[id].(status := Closed)])])
  }

  /** A close: the relay session of a relayed record is released, and the ledger's newest record is final. */
  lemma ClosedOnFields(w: World, session: SessionSnapshot, now: nat)
    requires session.sessionId in w.sessions && w.sessions[session.sessionId].sessionId == session.sessionId
    ensures var previous := w.sessions[session.sessionId];
            var (after, outcome) := CloseRuntimeSession(w, session, now);
            && after.sessions == w.sessions - {session.sessionId}
            && (previous.pathKind == Relay ==> Released(w, after, previous, outcome))
            && (previous.pathKind != Relay ==> outcome == Ok(()) && after.relays == w.relays)
            && (outcome.Err? ==> after.terminal == w.terminal)
            && (outcome.Ok? ==>
                  && after.terminal != []
                  && var final := after.terminal[|after.terminal| - 1];
                  && final == previous.(state := Closed_, lastActivity := now, closureReason := final.closureReason,
                                        stateReason := final.stateReason)
                  && final.closureReason == (if previous.closureReason.Some? then previous.closureReason else session.closureReason)
                  && final.stateReason == (if previous.stateReason.Some? then previous.stateReason else session.stateReason))
  {
    hide PushEvent, Filter;
    var previous := w.sessions[session.sessionId];
    var closing := UpdateSessionState(w, session.sessionId, Closing, OrElse(previous.closureReason, session.closureReason),
                                      OrElse(previous.stateReason, session.stateReason), now);
    assert closing.sessions - {session.sessionId} == w.sessions - {session.sessionId};
    assert closing.relays == w.relays && closing.down == w.down && closing.terminal == w.terminal;
  }

  /** The event of a state change is the newest one, and says closing or failed only for those two states. */
  lemma ChangeIsAnnounced(w: World, id: SessionId, state: RuntimeSessionState, closureReason: Option<SessionClosureReason>,
                          stateReason: Option<string>, now: nat)
    requires id in w.sessions
    ensures var after := UpdateSessionState(w, id, state, closureReason, stateReason, now);
            && after.events != []
            && var newest := after.events[|after.events| - 1];
            && newest.subjectKind == "session" && newest.subjectId == id && newest.emittedAt == now
            && (newest.eventType == "session.closing" <==> state == Closing)
            && (newest.eventType == "session.failed" <==> state == Failed)
            && (newest.eventType == "session.state_changed" <==> state != Closing && state != Failed)
            && after.sessions == w.sessions[id := w.sessions[id].(state := state, closureReason := closureReason,
                                                                  stateReason := stateReason, lastActivity := now)]
  {
  }

  // ---------------------------------------------------------------- attempts

  /** A failure on record: one more of them, given up at the maximum, and the wait from now on. */
  lemma AttemptOnFields(w: World, key: SessionKey, reason: string, maxAttempts: nat, base: nat, maxBackoff: nat, now: nat)
    requires base <= U64_MAX
    ensures var attempt := ScheduleReconnect(w, key, reason, maxAttempts, base, maxBackoff, now).1;
            var before := FindAttempt(w.attempts, key);
            && attempt.key == key && attempt.reason == reason && attempt.lastAttempt == now
            && attempt.maxAttempts == maxAttempts
            && attempt.attemptCount == 1 + (if before.Some? then before.value.attemptCount else 0)
            && (attempt.state == AttemptFailed <==> attempt.attemptCount >= maxAttempts)
            && attempt.nextAttempt == Min(now + Backoff(attempt.attemptCount, base, maxBackoff), U64_MAX)
  {
    assert Pow2(0) == 1;
    hide FindAttempt, PutAttempt, PushEvent, Pow2;
  }

  /** The waits: first the base, then twice the last one, with a cap, and no more growth after the 17th failure. */
  lemma WaitsDouble(count: nat, base: nat, maxBackoff: nat)
    requires count >= 1 && base <= U64_MAX && maxBackoff <= U64_MAX
    ensures Backoff(1, base, maxBackoff) == Min(base, maxBackoff)
    ensures Backoff(count + 1, base, maxBackoff)
         == if count <= 16 then Min(2 * Backoff(count, base, maxBackoff), maxBackoff) else Backoff(count, base, maxBackoff)
  {
    assert Pow2(0) == 1;
    if count <= 16 {
      var p := Pow2(count - 1);
      assert Pow2(count) == 2 * p;
      hide Pow2;
      assert base * (2 * p) == 2 * (base * p);
    }
  }

  /** Clearing a record is announced as success exactly when the outcome speaks of success or of an active session. */
  lemma ClearedExactly(outcome: string)
    ensures ClearedEvent(outcome) in {"reconnect.succeeded", "reconnect.cleared"}
    ensures ClearedEvent(outcome) == "reconnect.succeeded" <==>
            exists before, mark, after :: mark in {"succeeded", "active"} && outcome == (before + mark) + after
  {
    Texts.ContainsExactly(outcome, "succeeded");
    Texts.ContainsExactly(outcome, "active");
    hide Contains;
  }
}
