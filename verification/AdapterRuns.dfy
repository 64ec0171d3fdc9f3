/**
 Runs of the adapter: any sequence of its operations, changes of relay reachability, and opens and
 closes by other users of the same relays.
 */
module AdapterRuns {
  import opened Model
  import opened RelayWire
  import opened Transport
  import opened RelayLeases

  datatype AdapterStep =
    | ConnectStep(route: RoutePlan, inputs: Inputs)
    | MigrateStep(id: SessionId, route: RoutePlan, inputs: Inputs)
    | CloseStep(session: SessionSnapshot, now: nat)
    | UpdateStep(id: SessionId, state: RuntimeSessionState, closureReason: Option<SessionClosureReason>,
                 stateReason: Option<string>, now: nat)
    | SuppressStep(key: SessionKey, reason: string, now: nat)
    | ClearStep(key: SessionKey, now: nat)
    | ScheduleStep(key: SessionKey, reason: string, maxAttempts: nat, base: nat, maxBackoff: nat, now: nat)
    | ClearAttemptStep(key: SessionKey, outcome: string, now: nat)
    | RecordEventStep(eventType: string, kind: string, subject: string, now: nat)
    | ReachStep(down: set<Endpoint>)
    | ForeignOpenStep(endpoint: Endpoint, request: RelayOpenRequest, freshId: SessionId)
    | ForeignCloseStep(endpoint: Endpoint, sessionId: SessionId)

  function Step(cfg: Config, w: World, step: AdapterStep): World {
    match step
    case ConnectStep(route, inputs) => Connect(cfg, w, route, inputs).0
    case MigrateStep(id, route, inputs) => Migrate(cfg, w, id, route, inputs).0
    case CloseStep(session, now) => CloseRuntimeSession(w, session, now).0
    case UpdateStep(id, state, closureReason, stateReason, now) =>
      UpdateSessionState(w, id, state, closureReason, stateReason, now)
    case SuppressStep(key, reason, now) => SuppressReconnect(w, key, reason, now)
    case ClearStep(key, now) => ClearSuppression(w, key, now)
    case ScheduleStep(key, reason, maxAttempts, base, maxBackoff, now) =>
      ScheduleReconnect(w, key, reason, maxAttempts, base, maxBackoff, now).0
    case ClearAttemptStep(key, outcome, now) => ClearReconnectAttempt(w, key, outcome, now)
    case RecordEventStep(eventType, kind, subject, now) => Emit(w, eventType, kind, subject, now)
    case ReachStep(down) => w.(down := down)
    case ForeignOpenStep(endpoint, request, freshId) => RelayOpen(w, endpoint, request, freshId).0
    case ForeignCloseStep(endpoint, id) => RelayClose(w, Some(endpoint), id).0
  }

  function Run(cfg: Config, w: World, steps: seq<AdapterStep>): World
    decreases |steps|
  {
    if steps == [] then w else Run(cfg, Step(cfg, w, steps[0]), steps[1..])
  }

  /**
   What is asked of a step: routes have a relay plan exactly for relay paths, attempt ids are fresh,
   and other users act under their own identity and close their own sessions.
   */
  ghost predicate Admissible(w: World, local: PeerId, step: AdapterStep) {
    match step
    case ConnectStep(route, inputs) => RouteShaped(route) && FreshAttempt(w, route, inputs)
    case MigrateStep(id, route, inputs) => RouteShaped(route) && FreshAttempt(w, route, inputs)
    case ForeignOpenStep(endpoint, request, freshId) =>
      && request.source != local
      && (endpoint in w.relays ==> request.attemptId !in w.relays[endpoint].table)
    case ForeignCloseStep(endpoint, id) => (endpoint, id) !in OpenFor(w, local)
    case _ => true
  }

  ghost predicate AdmissibleRun(cfg: Config, w: World, local: PeerId, steps: seq<AdapterStep>)
    decreases |steps|
  {
    steps != [] ==> Admissible(w, local, steps[0]) && AdmissibleRun(cfg, Step(cfg, w, steps[0]), local, steps[1..])
  }

  /** The relay sessions that one step leaves open with no holder. */
  ghost function StepLeak(cfg: Config, w: World, step: AdapterStep): set<Lease> {
    match step
    case ConnectStep(route, inputs) => ConnectLeak(cfg, w, route, inputs)
    case MigrateStep(id, route, inputs) => MigrateLeak(cfg, w, id, route, inputs)
    case CloseStep(session, _) => CloseLeak(w, session)
    case _ => {}
  }

  ghost function RunLeak(cfg: Config, w: World, steps: seq<AdapterStep>): set<Lease>
    decreases |steps|
  {
    if steps == [] then {} else StepLeak(cfg, w, steps[0]) + RunLeak(cfg, Step(cfg, w, steps[0]), steps[1..])
  }

  lemma ForeignOpenConserves(w: World, local: PeerId, endpoint: Endpoint, request: RelayOpenRequest, freshId: SessionId)
    requires request.source != local
    requires endpoint in w.relays ==> request.attemptId !in w.relays[endpoint].table
    ensures OpenFor(RelayOpen(w, endpoint, request, freshId).0, local) == OpenFor(w, local)
  {
    var (after, outcome) := OpenAt(w.relays, w.down, endpoint, request, freshId);
    if outcome.Ok? {
      var table, table' := w.relays[endpoint].table, after[endpoint].table;
      var accepted := AcceptedReply(request, freshId);
      assert table' == table[request.attemptId := PendingRecord(request)][freshId := OpenRecord(accepted)];
      assert OpenIds(table', local) == OpenIds(table, local);
      forall e | e in w.relays && e != endpoint
        ensures after[e] == w.relays[e]
      {
      }
    }
  }

  lemma ForeignCloseConserves(w: World, local: PeerId, endpoint: Endpoint, id: SessionId)
    requires (endpoint, id) !in OpenFor(w, local)
    ensures OpenFor(RelayClose(w, Some(endpoint), id).0, local) == OpenFor(w, local)
  {
    if Known(w.relays, (endpoint, id)) {
      CloseRemovesLease(w.relays, w.down, (endpoint, id), local);
    }
  }

  /** One step: nothing is released early, and exactly the blocked close leaks. */
  lemma StepConserves(cfg: Config, w: World, local: PeerId, step: AdapterStep)
    requires cfg.localIdentity == Some(local) && Sound(w, local) && Admissible(w, local, step)
    ensures var after := Step(cfg, w, step);
            Sound(after, local) && Leaked(after, local) == Leaked(w, local) + StepLeak(cfg, w, step)
  {
    hide Connect, Migrate, CloseRuntimeSession, UpdateSessionState, RelayOpen, RelayClose, HeldIn, OpenIn, Keyed;
    match step
    case ConnectStep(route, inputs) => ConnectConserves(cfg, w, local, route, inputs);
    case MigrateStep(id, route, inputs) => MigrateConserves(cfg, w, local, id, route, inputs);
    case CloseStep(session, now) => CloseConserves(w, local, session, now);
    case UpdateStep(id, state, closureReason, stateReason, now) =>
      UpdateKeepsLeases(w, id, state, closureReason, stateReason, now);
    case ForeignOpenStep(endpoint, request, freshId) =>
      ForeignOpenConserves(w, local, endpoint, request, freshId);
      RelayCallsKeepSessions(w, endpoint, request, freshId);
    case ForeignCloseStep(endpoint, id) =>
      ForeignCloseConserves(w, local, endpoint, id);
      RelayCloseKeepsSessions(w, endpoint, id);
    case _ =>
  }

  lemma RelayCallsKeepSessions(w: World, endpoint: Endpoint, request: RelayOpenRequest, freshId: SessionId)
    ensures RelayOpen(w, endpoint, request, freshId).0.sessions == w.sessions
  {
  }

  lemma RelayCloseKeepsSessions(w: World, endpoint: Endpoint, id: SessionId)
    ensures RelayClose(w, Some(endpoint), id).0.sessions == w.sessions
  {
  }

  /**
   Conservation over runs. No live record ever holds a relay session that is not open or that another
   record holds, and the open sessions without a holder are exactly those left by blocked closes.
   */
  lemma {:induction false} RunConserves(cfg: Config, w: World, local: PeerId, steps: seq<AdapterStep>)
    requires cfg.localIdentity == Some(local) && Sound(w, local) && AdmissibleRun(cfg, w, local, steps)
    ensures var after := Run(cfg, w, steps);
            && Sound(after, local)
            && Leaked(after, local) == Leaked(w, local) + RunLeak(cfg, w, steps)
    decreases |steps|
  {
    hide Step, Sound, Leaked, StepLeak, Admissible;
    if steps != [] {
      StepConserves(cfg, w, local, steps[0]);
      RunConserves(cfg, Step(cfg, w, steps[0]), local, steps[1..]);
    }
  }

  predicate AlwaysReachable(steps: seq<AdapterStep>) {
    forall i :: 0 <= i < |steps| ==> (steps[i].ReachStep? ==> steps[i].down == {})
  }

  lemma ReachableStep(cfg: Config, w: World, step: AdapterStep)
    requires w.down == {} && (step.ReachStep? ==> step.down == {})
    ensures Step(cfg, w, step).down == {} && StepLeak(cfg, w, step) == {}
  {
    hide RelayOpen, RelayClose, SnapshotForRoute;
    match step
    case ConnectStep(route, inputs) => KeepsDown(cfg, w, route, inputs);
    case MigrateStep(id, route, inputs) =>
      var marked := UpdateSessionState(w, id, Migrating, None, Some("daemon requested path migration"), inputs.now);
      KeepsDown(cfg, marked, route, inputs);
      RelayCloseKeepsDown();
    case CloseStep(session, now) => RelayCloseKeepsDown();
    case ForeignOpenStep(endpoint, request, freshId) => RelayOpenKeepsDown(w, endpoint, request, freshId);
    case ForeignCloseStep(endpoint, id) => RelayCloseKeepsDown();
    case _ =>
  }

  lemma KeepsDown(cfg: Config, w: World, route: RoutePlan, inputs: Inputs)
    ensures SnapshotForRoute(cfg, w, route, inputs).0.down == w.down
    ensures forall v: World, session, now :: Upsert(v, session, now).0.down == v.down
  {
    RelayCloseKeepsDown();
  }

  lemma RelayOpenKeepsDown(w: World, endpoint: Endpoint, request: RelayOpenRequest, freshId: SessionId)
    ensures RelayOpen(w, endpoint, request, freshId).0.down == w.down
  {
  }

  lemma RelayCloseKeepsDown()
    ensures forall v: World, endpoint, id :: RelayClose(v, endpoint, id).0.down == v.down
  {
  }

  /**
   With every relay reachable throughout, the relay sessions open for this adapter are, one to one,
   the leases of its live relay records: none leaks and none is released early.
   */
  lemma {:induction false} ReachableRunLeaksNothing(cfg: Config, w: World, steps: seq<AdapterStep>)
    requires w.down == {} && AlwaysReachable(steps)
    ensures RunLeak(cfg, w, steps) == {}
    decreases |steps|
  {
    hide Step, StepLeak;
    if steps != [] {
      ReachableStep(cfg, w, steps[0]);
      ReachableRunLeaksNothing(cfg, Step(cfg, w, steps[0]), steps[1..]);
    }
  }

  lemma RelaysConserved(cfg: Config, w: World, local: PeerId, steps: seq<AdapterStep>)
    requires cfg.localIdentity == Some(local) && AdmissibleRun(cfg, w, local, steps)
    requires w.sessions == map[] && OpenFor(w, local) == {}
    requires w.down == {} && AlwaysReachable(steps)
    ensures var after := Run(cfg, w, steps);
            && OpenFor(after, local) == Held(after)
            && (forall a, b :: a in after.sessions && b in after.sessions && a != b ==>
                  LeaseOf(after.sessions[a]) !! LeaseOf(after.sessions[b]))
  {
    assert Held(w) == {};
    RunConserves(cfg, w, local, steps);
    ReachableRunLeaksNothing(cfg, w, steps);
  }

  /** A successful migration keeps the session's id and creation time and touches no other record. */
  lemma MigrationKeepsIdentity(cfg: Config, w: World, id: SessionId, route: RoutePlan, inputs: Inputs)
    requires id in w.sessions && w.sessions[id].sessionId == id
    ensures var (after, outcome) := Migrate(cfg, w, id, route, inputs);
            outcome.Ok? ==>
              && after.sessions == w.sessions[id := outcome.value]
              && outcome.value.sessionId == id
              && outcome.value.createdAt == w.sessions[id].createdAt
              && KeyOf(outcome.value) == RouteKey(route)
              && outcome.value.state == Active
  {
  }
}
