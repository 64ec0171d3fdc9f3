/**
 Inputs on which the control plane misses what one might expect of it: a suppression that no report
 counts, and a session that reconciling never settles.
 */
module Counterexamples {
  import opened Model
  import opened Policy
  import opened Routing
  import opened RelayWire
  import opened Transport
  import opened SessionKeys
  import opened ControlPlane
  import opened ControlRuns
  import opened ReconcileProofs
  import opened ReevaluationProofs
  import A = AdapterRuns
  import R = RouteStability
  import D = DurableState
  import P = DurableProofs

  const PROTOCOL := "/x/1"
  const GRANT := CapabilityGrant("n", "l", "authority", ["protocol:/x/1"], [PROTOCOL], 0, "")

  /** Policy allows the protocol to any peer in a state with this grant and no revocation. */
  lemma GrantAllows(d: D.DaemonState, peer: PeerId)
    requires d.localPeer == "l" && d.grants == [GRANT] && d.revocations == [] && d.denied == []
    ensures D.ExplainPolicy(d, peer, PROTOCOL).allowed
  {
    P.AllowedExactly(d, peer, PROTOCOL);
    assert GRANT in d.grants && D.ActiveFor(d, "l", GRANT);
    assert D.ProtocolCapability(PROTOCOL) == "protocol:/x/1";
    assert Grants(GRANT, D.ProtocolCapability(PROTOCOL), PROTOCOL);
    hide D.ExplainPolicy;
  }

  // ---------------------------------------------------------------- an uncounted suppression

  /** A state that still has an observed path to a peer whose addresses are gone. */
  const ADDRESSLESS := R.CLEAN.(
    grants := [GRANT], peers := [D.PeerInspection("p", [], D.FromBootstrap, None)], pathCandidates := [R.OBSERVED])

  const LIVE := SessionSnapshot(
    "s", "s", None, "p", Some(PROTOCOL), Control, DirectUdp, Observed, "a", None, None, None, false, true, Active,
    None, None, 0, 0)

  const LIVE_WORLD := World(map["s" := LIVE], [], map[], [], [], [], map[], {})

  lemma AddresslessRoute()
    ensures var planned := D.PlanRoute(ADDRESSLESS, "p", Some(PROTOCOL), Control);
            planned.Ok? && planned.value.remoteEndpoints == [] && planned.value.relay.None?
  {
    FilterAll([R.OBSERVED], (c: PathCandidate) => c.peer == "p");
    assert D.CandidatesFor(ADDRESSLESS, "p") == [R.OBSERVED];
    assert Control in R.OBSERVED.trafficClasses;
    R.ControlSupported([R.OBSERVED], R.OBSERVED, Control);
    hide SelectBestPath, D.MatchesPathKind;
  }

  /** A direct route without endpoints cannot be migrated to. */
  lemma NowhereToMigrate(cfg: Config, w: World, id: SessionId, route: RoutePlan, inputs: Inputs)
    requires route.relay.None? && route.remoteEndpoints == []
    ensures Migrate(cfg, w, id, route, inputs).1.Err?
    ensures id in w.sessions ==>
      var after := Migrate(cfg, w, id, route, inputs).0;
      id in after.sessions && KeyOf(after.sessions[id]) == KeyOf(w.sessions[id])
      && after.sessions[id].pathKind == w.sessions[id].pathKind && after.sessions[id].sessionId == w.sessions[id].sessionId
  {
    hide PushEvent, Upsert, LogicalSessionId;
  }

  lemma DirectCloses(w: World, session: SessionSnapshot, reason: SessionClosureReason, text: string, now: nat)
    requires session.sessionId in w.sessions ==> w.sessions[session.sessionId].pathKind != Relay
    ensures FailAndClose(w, session, reason, text, now).1.Ok?
  {
    hide PushEvent, PushTerminal;
  }

  /** The turn of a session whose planned route leads nowhere: it is closed and its key suppressed. */
  lemma FailedMigrationTurn(cfg: Config, d: D.DaemonState, runtimePeer: PeerId, w: World, session: SessionSnapshot,
                            inputs: Inputs)
    requires session.sessionId in w.sessions && w.sessions[session.sessionId] == session && session.protocol.Some?
    requires !EnforcedKey(d, runtimePeer, KeyOf(session)) && session.migrationCapable && session.pathKind != Relay
    requires var planned := D.PlanRoute(d, session.peer, session.protocol, session.class_);
             planned.Ok? && planned.value.remoteEndpoints == [] && planned.value.relay.None?
    ensures ReevaluateOne(cfg, d, runtimePeer, w, session, inputs).1 ==
            Ok(MigrationFailed(FindSuppression(w.suppressions, KeyOf(session)).Some?))
  {
    hide D.PlanRoute, Migrate, FailAndClose, PushEvent, FindSuppression, DropSuppression, PutSuppression, Enforcement;
    var route := D.PlanRoute(d, session.peer, session.protocol, session.class_).value;
    var now := inputs.now;
    var cleared := ClearSuppression(w, KeyOf(session), now);
    var marked := UpdateSessionState(Emit(cleared, "path.migration_started", "session", session.sessionId, now),
                                     session.sessionId, Migrating, None, Some(BETTER_PATH), now);
    NowhereToMigrate(cfg, marked, session.sessionId, route, inputs);
    var (moved, outcome) := Migrate(cfg, marked, session.sessionId, route, inputs);
    DirectCloses(moved, session, LocalRuntimeFailure, "authority reevaluation migration failed: " + ErrorText(outcome.error),
                 now);
  }

  lemma LiveIsSpared()
    ensures !EnforcedKey(ADDRESSLESS, "l", KeyOf(LIVE))
  {
    GrantAllows(ADDRESSLESS, "p");
    SparedExactly(ADDRESSLESS, "l", KeyOf(LIVE));
    hide D.ExplainPolicy, EnforcedKey;
  }

  lemma PassOfOne(cfg: Config, inputs: InputStream, w: World)
    requires w.sessions == map["s" := LIVE] && w.suppressions == []
    ensures ReevaluateFrom(cfg, ADDRESSLESS, "l", w, [LIVE], inputs, 0, NO_TALLY).1 ==
            Ok(AddTo(NO_TALLY, MigrationFailed(false)))
    ensures FailedMigrations(cfg, ADDRESSLESS, "l", w, [LIVE], inputs, 0) == 1
  {
    LiveIsSpared();
    AddresslessRoute();
    FailedMigrationTurn(cfg, ADDRESSLESS, "l", w, LIVE, inputs(0));
    hide ReevaluateOne, EnforcedKey, D.PlanRoute;
    var next := ReevaluateOne(cfg, ADDRESSLESS, "l", w, LIVE, inputs(0)).0;
    var tally := AddTo(NO_TALLY, MigrationFailed(false));
    assert ReevaluateFrom(cfg, ADDRESSLESS, "l", next, [LIVE], inputs, 1, tally) == (next, Ok(tally));
    assert FailedMigrations(cfg, ADDRESSLESS, "l", next, [LIVE], inputs, 1) == 0;
  }

  lemma FailureCounts(t: SessionTally, cleared: bool)
    ensures var next := AddTo(t, MigrationFailed(cleared));
            && next.closed == t.closed + 1 && next.suppressionsAdded == t.suppressionsAdded
            && next.suppressionsCleared == t.suppressionsCleared + One(cleared)
  {
  }

  lemma NoneCounted()
    ensures NO_TALLY.suppressionsAdded == NO_TALLY.suppressionsCleared == NO_TALLY.closed == 0
  {
  }

  lemma LiveIsListed()
    ensures AtOwnIds(LIVE_WORLD) && Lists([LIVE], LIVE_WORLD.sessions) && UniqueKeys(LIVE_WORLD.suppressions)
  {
    assert [LIVE][0].sessionId == "s";
  }

  lemma GrowthFromAccount(d: D.DaemonState, runtimePeer: PeerId, order: seq<SessionSnapshot>, t: SessionTally, failed: nat,
                          before: nat, after: nat)
    requires Accounted(d, runtimePeer, order, t, failed, before, after)
    ensures after == before + t.suppressionsAdded - t.suppressionsCleared + failed
  {
    hide CountWithProtocol, CountEnforced;
  }

  /**
   One session, one failed migration: the suppression list grows by one entry and the report counts none
   added, whatever the adapter's configuration.
   */
  lemma UncountedSuppression(cfg: Config, inputs: InputStream, now: nat)
    ensures var (after, outcome) := ReevaluateSessions(cfg, ADDRESSLESS, "l", LIVE_WORLD, [LIVE], inputs, now);
            && outcome.Ok? && outcome.value.suppressionsAdded == 0 && outcome.value.closed == 1
            && |LIVE_WORLD.suppressions| == 0 && |after.suppressions| == 1
            && FailedMigrations(cfg, ADDRESSLESS, "l", ReevaluationStarted(LIVE_WORLD, "l", now), [LIVE], inputs, 0) == 1
  {
    hide ReevaluateFrom, FailedMigrations, NoneDenied, DoneEnforced, Lists, PushEvent, CountWithProtocol, CountEnforced,
         Accounted, UniqueKeys, AtOwnIds, AddTo;
    var started := ReevaluationStarted(LIVE_WORLD, "l", now);
    PassOfOne(cfg, inputs, started);
    LiveIsListed();
    FailureCounts(NO_TALLY, false);
    NoneCounted();
    ReevaluationEnforces(cfg, ADDRESSLESS, "l", LIVE_WORLD, [LIVE], inputs, now);
    GrowthFromAccount(ADDRESSLESS, "l", [LIVE], AddTo(NO_TALLY, MigrationFailed(false)), 1, 0,
                      |ReevaluateSessions(cfg, ADDRESSLESS, "l", LIVE_WORLD, [LIVE], inputs, now).0.suppressions|);
  }

  // ---------------------------------------------------------------- a session that never settles

  const RELAY := D.RelayAnnouncement("r", ["e"], "c", 0, false, true, ["NetworkControl"])
  const NODE := RelayNode(["NetworkControl"], [], [RelayDestination("p", [PROTOCOL])])

  /** A peer without addresses behind one relay; the candidates are those that the state itself computes. */
  const RELAYED := D.Recached(R.CLEAN.(
    grants := [GRANT], peers := [D.PeerInspection("p", [], D.FromBootstrap, None)],
    relayMap := Some(D.RelayMap(1, 0, [RELAY]))))

  /** No session yet, and the relay is there. */
  const QUIET_WORLD := World(map[], [], map[], [], [], [], map["c" := RelayServer(NODE, map[])], {})

  const PLAN := RelayPlan("r", ["e"], "c", [], false, true)
  const ROUTE := RoutePlan("l", "p", Some(PROTOCOL), Control, Relay, AuthorityRelay, [], Some(PLAN))

  lemma OnlyTheRelay(c: PathCandidate)
    ensures c in D.CandidatesFor(RELAYED, "p") ==> c == D.FallbackCandidate("p", RELAY, R.CLEAN.netcheck)
    ensures D.CandidatesFor(RELAYED, "p") != []
  {
    var state := R.CLEAN.(grants := [GRANT], peers := [D.PeerInspection("p", [], D.FromBootstrap, None)],
                          relayMap := Some(D.RelayMap(1, 0, [RELAY])));
    var direct, fallback := D.DirectRelayCandidate(RELAY, state.netcheck), D.FallbackCandidate("p", RELAY, state.netcheck);
    assert direct.peer == "r" && fallback.peer == "p";
    Synthesizes(state);
    P.MergedShape(state);
    FilterMembers(RELAYED.pathCandidates, (d: PathCandidate) => d.peer == "p");
    hide D.DirectRelayCandidate, D.FallbackCandidate, D.MergedPathCandidates, D.Synthesized;
    var merged := D.MergedPathCandidates(state);
    assert D.Observed([]) == [];
    assert merged[0..] == merged;
    assert fallback in [direct, fallback];
    var found :| found in merged && D.KeyOfCandidate(found) == D.KeyOfCandidate(fallback);
    assert found in D.CandidatesFor(RELAYED, "p");
  }

  lemma Synthesizes(state: D.DaemonState)
    requires state.peers == [D.PeerInspection("p", [], D.FromBootstrap, None)] && state.bootstrap == []
    requires state.relayMap == Some(D.RelayMap(1, 0, [RELAY]))
    ensures D.Synthesized(state)
         == [D.DirectRelayCandidate(RELAY, state.netcheck), D.FallbackCandidate("p", RELAY, state.netcheck)]
  {
    hide D.DirectRelayCandidate, D.FallbackCandidate;
    assert state.peers[1..] == [] && [RELAY][0].peer == "r";
    assert !D.IsRelayPeer([RELAY], "p");
    assert D.FallbackCandidates("p", [RELAY], state.netcheck) == [D.FallbackCandidate("p", RELAY, state.netcheck)];
    assert D.DirectRelayCandidates([RELAY], state.netcheck) == [D.DirectRelayCandidate(RELAY, state.netcheck)];
    assert D.AllFallbacks([], [RELAY], state.netcheck) == [];
    assert D.AllFallbacks(state.peers, [RELAY], state.netcheck) == [D.FallbackCandidate("p", RELAY, state.netcheck)] + [];
    assert D.BootstrapCandidates([], state.netcheck) == [];
    hide D.AllFallbacks, D.DirectRelayCandidates, D.BootstrapCandidates;
  }

  lemma ControlNamed()
    ensures D.RelayTrafficClasses(["NetworkControl"]) == [Control]
  {
    assert D.NamedClasses(["NetworkControl"][1..]) == [];
  }

  lemma NoEndpoints(kind: PathKind)
    ensures D.RouteEndpoints([], kind) == []
  {
  }

  /** The route that is planned to the peer: over the relay, to no endpoint. */
  lemma RelayedRoute()
    ensures D.PlanRoute(RELAYED, "p", Some(PROTOCOL), Control) == Ok(ROUTE)
  {
    var fallback := D.FallbackCandidate("p", RELAY, R.CLEAN.netcheck);
    ControlNamed();
    assert Control in fallback.trafficClasses && fallback.pathKind == Relay && fallback.relayPeer == Some("r");
    assert fallback.source == AuthorityPath;
    var candidates := D.CandidatesFor(RELAYED, "p");
    forall c ensures c in candidates ==> c == fallback {
      OnlyTheRelay(c);
    }
    OnlyTheRelay(fallback);
    assert candidates[0] in candidates;
    R.ControlSupported(candidates, fallback, Control);
    NoEndpoints(Relay);
    R.OneEndpoint("e", D.DirectKind(["e"]));
    hide SelectBestPath, D.FallbackCandidate, D.CandidatesFor, D.RouteEndpoints, D.DirectKind, D.MergedPathCandidates;
  }

  // ---- the world that the adapter comes to

  /** The adapter's own settings: its identity, its network, path migration. */
  predicate Configured(cfg: Config) {
    cfg.localIdentity == Some("l") && cfg.networkId.Some? && cfg.supportsPathMigration
  }

  lemma NodeAdmits(table: Sessions, inputs: Inputs)
    requires inputs.proofValid && inputs.relaySessionId !in table
    ensures Admission(NODE, table, RequestFor(ROUTE, inputs), inputs.relaySessionId) == Ok(())
  {
    assert AcceptsClass("NetworkControl", Control) && "NetworkControl" in NODE.trafficClasses;
    assert AuthorizeDestination(NODE.destinations, "p", Some(PROTOCOL)) == Ok(());
  }

  /** The session that a dial over the relay opens. */
  function OpenedBy(cfg: Config, inputs: Inputs): SessionSnapshot {
    RelayedSession(cfg, ROUTE, PLAN, AcceptedReply(RequestFor(ROUTE, inputs), inputs.relaySessionId), inputs.now)
  }

  /** A world in which the relay serves its table and nothing is down. */
  predicate Serving(w: World) {
    w.down == {} && "c" in w.relays && w.relays["c"].node == NODE
  }

  lemma DialSucceeds(cfg: Config, w: World, inputs: Inputs)
    requires Configured(cfg) && Serving(w) && inputs.proofValid && inputs.relaySessionId !in w.relays["c"].table
    ensures var (after, outcome) := SnapshotForRoute(cfg, w, ROUTE, inputs);
            && outcome == Ok(OpenedBy(cfg, inputs)) && Serving(after) && after == w.(relays := after.relays)
            && after.relays["c"].table.Keys == w.relays["c"].table.Keys + {inputs.attemptId, inputs.relaySessionId}
  {
    NodeAdmits(w.relays["c"].table, inputs);
    hide Admission, LogicalSessionId;
  }

  lemma ConnectSucceeds(cfg: Config, inputs: Inputs)
    requires Configured(cfg) && inputs.proofValid
    ensures var (after, outcome) := Connect(cfg, QUIET_WORLD, ROUTE, inputs);
            var session := OpenedBy(cfg, inputs);
            && outcome == Ok(session) && Serving(after) && after.sessions == map[session.sessionId := session]
            && after.relays["c"].table.Keys == {inputs.attemptId, inputs.relaySessionId}
  {
    DialSucceeds(cfg, QUIET_WORLD, inputs);
    hide SnapshotForRoute, PushEvent, OpenedBy;
    var session := OpenedBy(cfg, inputs);
    assert QUIET_WORLD.sessions[session.sessionId := session] == map[session.sessionId := session];
  }

  lemma CloseSucceeds(w: World, id: SessionId)
    requires Serving(w) && id in w.relays["c"].table
    ensures var (after, outcome) := RelayClose(w, Some("c"), id);
            && outcome.Ok? && Serving(after) && after == w.(relays := after.relays)
            && after.relays["c"].table.Keys == w.relays["c"].table.Keys
  {
  }

  lemma UpsertSucceeds(w: World, session: SessionSnapshot, now: nat)
    requires Serving(w) && session.sessionId in w.sessions
    requires var previous := w.sessions[session.sessionId];
             previous.relayControlEndpoint == Some("c") && previous.transportSessionId in w.relays["c"].table
    ensures Upsert(w, session, now).1.Ok?
  {
    var previous := w.sessions[session.sessionId];
    CloseSucceeds(w.(sessions := w.sessions[session.sessionId := session]), previous.transportSessionId);
    hide RelayClose, ReleasesRelay, PushEvent;
  }

  /** A migration onto the same relay succeeds while the relay knows the old session and the new id is fresh. */
  lemma MigrateSucceeds(cfg: Config, w: World, id: SessionId, inputs: Inputs)
    requires Configured(cfg) && Serving(w) && inputs.proofValid && inputs.relaySessionId !in w.relays["c"].table
    requires id in w.sessions && w.sessions[id].sessionId == id && w.sessions[id].relayControlEndpoint == Some("c")
    requires w.sessions[id].transportSessionId in w.relays["c"].table
    ensures Migrate(cfg, w, id, ROUTE, inputs).1.Ok?
  {
    hide SnapshotForRoute, Upsert, RelayClose, ReleasesRelay, PushEvent, OpenedBy;
    var marked := UpdateSessionState(w, id, Migrating, None, Some("daemon requested path migration"), inputs.now);
    var existing := marked.sessions[id];
    DialSucceeds(cfg, marked, inputs);
    var (dialed, outcome) := SnapshotForRoute(cfg, marked, ROUTE, inputs);
    var migrated := outcome.value.(sessionId := existing.sessionId, createdAt := existing.createdAt,
                                   lastActivity := inputs.now);
    CloseSucceeds(dialed, existing.transportSessionId);
    UpsertSucceeds(dialed, migrated, inputs.now);
    UpsertSucceeds(RelayClose(dialed, existing.relayControlEndpoint, existing.transportSessionId).0, migrated, inputs.now);
  }

  /** Policy allows the session and its route names no endpoint, so it counts as misplaced wherever it is. */
  lemma AlwaysMisplaced(session: SessionSnapshot)
    requires KeyOf(session) == SessionKey("p", Some(PROTOCOL), Control)
    ensures Judge(RELAYED, session) == Misplaced(ROUTE)
  {
    RelayedRoute();
    GrantAllows(RELAYED, "p");
    hide D.PlanRoute, D.ExplainPolicy, D.Recached;
  }

  lemma TurnUpgrades(cfg: Config, w: World, listed: SessionSnapshot, inputs: Inputs)
    requires Configured(cfg) && Serving(w) && inputs.proofValid && inputs.relaySessionId !in w.relays["c"].table
    requires listed.sessionId in w.sessions && w.sessions[listed.sessionId] == listed
    requires KeyOf(listed) == SessionKey("p", Some(PROTOCOL), Control) && listed.relayControlEndpoint == Some("c")
    requires listed.transportSessionId in w.relays["c"].table
    ensures var (after, outcome) := ReconcileOne(cfg, RELAYED, w, listed, inputs);
            outcome.Ok? && outcome.value.disposition == Upgraded && listed.sessionId in after.sessions
  {
    hide Judge, Migrate, PushEvent;
    var id, now := listed.sessionId, inputs.now;
    var marked := UpdateSessionState(w, id, Reconciling, None, Some("daemon reconcile cycle"), now);
    AlwaysMisplaced(marked.sessions[id]);
    var moving := UpdateSessionState(marked, id, Migrating, None, Some("selected path changed; session migrating"), now);
    MigrateSucceeds(cfg, moving, id, inputs);
    MigrateKeepsIt(cfg, moving, id, inputs);
  }

  lemma MigrateKeepsIt(cfg: Config, w: World, id: SessionId, inputs: Inputs)
    requires id in w.sessions && w.sessions[id].sessionId == id && Migrate(cfg, w, id, ROUTE, inputs).1.Ok?
    ensures id in Migrate(cfg, w, id, ROUTE, inputs).0.sessions
  {
    A.MigrationKeepsIdentity(cfg, w, id, ROUTE, inputs);
    hide Migrate;
  }

  /** The whole first cycle over the one session. */
  lemma CycleUpgrades(cfg: Config, w: World, listed: SessionSnapshot, inputs: InputStream)
    requires Configured(cfg) && Serving(w) && inputs(0).proofValid && inputs(0).relaySessionId !in w.relays["c"].table
    requires listed.sessionId in w.sessions && w.sessions[listed.sessionId] == listed
    requires KeyOf(listed) == SessionKey("p", Some(PROTOCOL), Control) && listed.relayControlEndpoint == Some("c")
    requires listed.transportSessionId in w.relays["c"].table
    ensures var (after, outcome) := ReconcileFrom(cfg, RELAYED, w, [listed], inputs, 0, []);
            outcome.Ok? && |outcome.value| == 1 && outcome.value[0].disposition == Upgraded && listed.sessionId in after.sessions
  {
    TurnUpgrades(cfg, w, listed, inputs(0));
    hide ReconcileOne;
    var (next, outcome) := ReconcileOne(cfg, RELAYED, w, listed, inputs(0));
    assert ReconcileFrom(cfg, RELAYED, next, [listed], inputs, 1, [] + [outcome.value]) == (next, Ok([] + [outcome.value]));
  }

  lemma OpenedFields(cfg: Config, inputs: Inputs)
    ensures var session := OpenedBy(cfg, inputs);
            && KeyOf(session) == SessionKey("p", Some(PROTOCOL), Control)
            && session.relayControlEndpoint == Some("c") && session.transportSessionId == inputs.relaySessionId
  {
    hide LogicalSessionId;
  }

  /**
   From an empty registry and a reachable relay: the adapter connects to the peer over the relay, a first
   cycle succeeds by moving the session onto a new relay session, and the second one does not find it
   settled either, however it goes.
   */
  lemma NeverSettles(cfg: Config, dial: Inputs, inputs: InputStream, order: seq<SessionSnapshot>, inputs2: InputStream)
    requires Configured(cfg) && dial.proofValid && inputs(0).proofValid
    requires inputs(0).relaySessionId != dial.relaySessionId && inputs(0).relaySessionId != dial.attemptId
    requires Lists(order, ReconcileFrom(cfg, RELAYED, Connect(cfg, QUIET_WORLD, ROUTE, dial).0, [OpenedBy(cfg, dial)],
                                        inputs, 0, []).0.sessions)
    ensures D.PlanRoute(RELAYED, "p", Some(PROTOCOL), Control) == Ok(ROUTE)
    ensures Connect(cfg, QUIET_WORLD, ROUTE, dial).1 == Ok(OpenedBy(cfg, dial))
    ensures var w := Connect(cfg, QUIET_WORLD, ROUTE, dial).0;
            var (first, outcome) := ReconcileFrom(cfg, RELAYED, w, [OpenedBy(cfg, dial)], inputs, 0, []);
            var (_, again) := ReconcileFrom(cfg, RELAYED, first, order, inputs2, 0, []);
            && outcome.Ok? && |outcome.value| == 1 && outcome.value[0].disposition == Upgraded
            && !(again.Ok? && ReportOf(again.value).untouched == ReportOf(again.value).examined)
  {
    hide ReconcileFrom, Connect, OpenedBy, D.Recached, Lists, PeerHasAddress, D.PlanRoute;
    var w, session := Connect(cfg, QUIET_WORLD, ROUTE, dial).0, OpenedBy(cfg, dial);
    RelayedRoute();
    ConnectSucceeds(cfg, dial);
    OpenedFields(cfg, dial);
    CycleUpgrades(cfg, w, session, inputs);
    OneIsListed(w, session);
    var first := ReconcileFrom(cfg, RELAYED, w, [session], inputs, 0, []).0;
    ReconcileFixedPoint(cfg, RELAYED, w, [session], inputs, order, inputs2);
    StillThePeer(cfg, w, session, inputs);
    NoAddress();
    assert session.sessionId in first.sessions && first.sessions[session.sessionId].peer == "p";
  }

  lemma NoAddress()
    ensures !PeerHasAddress(RELAYED, "p")
  {
    hide D.MergedPathCandidates;
  }

  lemma OneIsListed(w: World, session: SessionSnapshot)
    requires w.sessions == map[session.sessionId := session]
    ensures AtOwnIds(w) && Lists([session], w.sessions)
  {
    assert [session][0].sessionId == session.sessionId;
  }

  /** Whatever the cycle did, a session left under the id serves the key that was listed there. */
  lemma StillThePeer(cfg: Config, w: World, session: SessionSnapshot, inputs: InputStream)
    requires w.sessions == map[session.sessionId := session] && session.peer == "p"
    requires session.sessionId in ReconcileFrom(cfg, RELAYED, w, [session], inputs, 0, []).0.sessions
    ensures ReconcileFrom(cfg, RELAYED, w, [session], inputs, 0, []).0.sessions[session.sessionId].peer == "p"
  {
    ReconcileConfined(cfg, RELAYED, w, session, inputs(0));
    hide ReconcileOne, Confined;
    var (next, outcome) := ReconcileOne(cfg, RELAYED, w, session, inputs(0));
    if outcome.Ok? {
      assert ReconcileFrom(cfg, RELAYED, next, [session], inputs, 1, [] + [outcome.value]).0 == next;
    }
  }
}
