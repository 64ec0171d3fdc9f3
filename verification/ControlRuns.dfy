/**
 Runs of the whole control plane: adapter operations interleaved with reconcile and reevaluate cycles
 under any durable states. Each cycle unfolds into adapter operations on the listed sessions.
 */
module ControlRuns {
  import opened Model
  import opened Transport
  import opened RelayLeases
  import opened AdapterRuns
  import opened SessionKeys
  import opened ControlPlane
  import opened ControlTraces
  import D = DurableState

  // ---------------------------------------------------------------- planned routes

  /** Planned routes carry a relay plan exactly for relay paths, and serve the key they were asked for. */
  lemma PlannedRoute(d: D.DaemonState, peer: PeerId, protocol: Option<ProtocolId>, class_: TrafficClass)
    requires D.PlanRoute(d, peer, protocol, class_).Ok?
    ensures var route := D.PlanRoute(d, peer, protocol, class_).value;
            && RouteShaped(route) && RouteKey(route) == SessionKey(peer, protocol, class_)
            && route.localPeer == d.localPeer
            && (route.relay.Some? ==> route.relay.value.destinationEndpoints == route.remoteEndpoints)
            && D.FindPeer(d.peers, peer).Some?
            && (route.remoteEndpoints == [] <==> D.FindPeer(d.peers, peer).value.addresses == [])
  {
    hide D.BestPath, D.FindRelay, D.MatchesPathKind, D.DirectKind;
  }

  // ---------------------------------------------------------------- steps that serve one session

  /** An operation that a cycle performs for `session`. */
  predicate Serves(step: AdapterStep, session: SessionSnapshot) {
    match step
    case UpdateStep(id, _, _, _, _) => id == session.sessionId
    case MigrateStep(id, route, _) => id == session.sessionId && RouteShaped(route) && RouteKey(route) == KeyOf(session)
    case CloseStep(closed, _) => closed.sessionId == session.sessionId
    case SuppressStep(key, _, _) => key == KeyOf(session)
    case ClearStep(key, _) => key == KeyOf(session)
    case RecordEventStep(_, _, _, _) => true
    case _ => false
  }

  predicate AllServe(trace: seq<AdapterStep>, session: SessionSnapshot) {
    forall i :: 0 <= i < |trace| ==> Serves(trace[i], session)
  }

  lemma MoveServes(cfg: Config, w: World, session: SessionSnapshot, route: RoutePlan, marking: string, failure: string,
                   inputs: Inputs)
    requires RouteShaped(route) && RouteKey(route) == KeyOf(session)
    ensures AllServe(MoveTrace(cfg, w, session, route, marking, failure, inputs), session)
  {
    hide Migrate, Step, RouteShaped;
  }

  lemma ReconcileServes(cfg: Config, d: D.DaemonState, w: World, listed: SessionSnapshot, inputs: Inputs)
    requires listed.sessionId in w.sessions ==>
      w.sessions[listed.sessionId].sessionId == listed.sessionId && KeyOf(w.sessions[listed.sessionId]) == KeyOf(listed)
    ensures AllServe(ReconcileTrace(cfg, d, w, listed, inputs), listed)
  {
    hide Judge, UpdateSessionState, MoveTrace, RouteShaped;
    var id := listed.sessionId;
    var mark := UpdateStep(id, Reconciling, None, Some("daemon reconcile cycle"), inputs.now);
    var marked := Step(cfg, w, mark);
    UpdateKeepsKey(w, id, Reconciling, None, Some("daemon reconcile cycle"), inputs.now);
    if id in marked.sessions {
      var session := marked.sessions[id];
      if Judge(d, session).Misplaced? {
        var route := Judge(d, session).route;
        MisplacedIsPlanned(d, session);
        MoveServes(cfg, marked, session, route, RECONCILE_MARK, RECONCILE_FAILURE, inputs);
      }
      SameServes(VerdictTrace(cfg, d, marked, session, inputs), session, listed);
    }
  }

  lemma UpdateKeepsKey(w: World, id: SessionId, state: RuntimeSessionState, closureReason: Option<SessionClosureReason>,
                       stateReason: Option<string>, now: nat)
    ensures var after := UpdateSessionState(w, id, state, closureReason, stateReason, now);
            && after.sessions.Keys == w.sessions.Keys
            && (id in w.sessions ==>
                  (after.sessions[id] == w.sessions[id].(state := state, closureReason := closureReason,
                                                         stateReason := stateReason, lastActivity := now)))
  {
  }

  lemma MisplacedIsPlanned(d: D.DaemonState, session: SessionSnapshot)
    requires Judge(d, session).Misplaced?
    ensures var route := Judge(d, session).route;
            && D.PlanRoute(d, session.peer, session.protocol, session.class_) == Ok(route)
            && RouteShaped(route) && RouteKey(route) == KeyOf(session)
            && !SessionMatchesRoute(session, route) && session.protocol.Some?
            && D.ExplainPolicy(d, session.peer, session.protocol.value).allowed
  {
    hide D.PlanRoute, D.ExplainPolicy;
    PlannedRoute(d, session.peer, session.protocol, session.class_);
  }

  lemma SameServes(trace: seq<AdapterStep>, a: SessionSnapshot, b: SessionSnapshot)
    requires AllServe(trace, a) && a.sessionId == b.sessionId && KeyOf(a) == KeyOf(b)
    ensures AllServe(trace, b)
  {
    hide RouteShaped;
    forall i | 0 <= i < |trace| ensures Serves(trace[i], b) {
      assert Serves(trace[i], a);
    }
  }

  lemma RehomeServes(cfg: Config, w: World, session: SessionSnapshot, route: RoutePlan, inputs: Inputs)
    requires RouteShaped(route) && RouteKey(route) == KeyOf(session)
    ensures AllServe(RehomeTrace(cfg, w, session, route, inputs), session)
  {
    hide Migrate, Step, FailAndClose, MoveTrace, RouteShaped;
    var start := RecordEventStep("path.migration_started", "session", session.sessionId, inputs.now);
    MoveServes(cfg, Step(cfg, w, start), session, route, BETTER_PATH, REEVALUATE_FAILURE, inputs);
  }

  lemma ReevaluateServes(cfg: Config, d: D.DaemonState, runtimePeer: PeerId, w: World, session: SessionSnapshot,
                         inputs: Inputs)
    ensures AllServe(ReevaluateTrace(cfg, d, runtimePeer, w, session, inputs), session)
  {
    hide Enforcement, Step, RehomeTrace, D.PlanRoute, SessionMatchesRoute, RouteShaped;
    if session.protocol.Some? && Enforcement(d, runtimePeer, session.peer, session.protocol.value).None? {
      var planned := D.PlanRoute(d, session.peer, session.protocol, session.class_);
      if planned.Ok? && !SessionMatchesRoute(session, planned.value) && session.migrationCapable {
        PlannedRoute(d, session.peer, session.protocol, session.class_);
        RehomeServes(cfg, Step(cfg, w, ClearStep(KeyOf(session), inputs.now)), session, planned.value, inputs);
      }
    }
  }

  // ---------------------------------------------------------------- what serving one session touches

  ghost predicate AtOwnIds(w: World) {
    forall id :: id in w.sessions ==> w.sessions[id].sessionId == id
  }

  /** The record at the session's id, if any, has the session's key. */
  predicate StillServes(w: World, session: SessionSnapshot) {
    session.sessionId in w.sessions ==> KeyOf(w.sessions[session.sessionId]) == KeyOf(session)
  }

  /** Only the record at `id` and the suppression of `key` may differ. */
  ghost predicate Confined(before: World, after: World, id: SessionId, key: SessionKey) {
    && after.sessions - {id} == before.sessions - {id}
    && (id in after.sessions ==> id in before.sessions)
    && (forall other :: other != key ==>
          FindSuppression(after.suppressions, other) == FindSuppression(before.suppressions, other))
    && after.attempts == before.attempts && after.listeners == before.listeners
  }

  lemma ServingStep(cfg: Config, w: World, step: AdapterStep, session: SessionSnapshot)
    requires AtOwnIds(w) && StillServes(w, session) && Serves(step, session)
    ensures var after := Step(cfg, w, step);
            && AtOwnIds(after) && StillServes(after, session) && OwnKey(w, step)
            && Confined(w, after, session.sessionId, KeyOf(session))
  {
    hide Migrate, CloseRuntimeSession, FindSuppression, PutSuppression, DropSuppression, PushEvent, RouteShaped;
    var id, key := session.sessionId, KeyOf(session);
    match step
    case UpdateStep(_, state, closureReason, stateReason, now) =>
    case MigrateStep(_, route, inputs) =>
      MigrateStores(cfg, w, id, route, inputs);
      MigrateTouches(cfg, w, id, route, inputs);
      assert (Step(cfg, w, step).sessions - {id}).Keys == (w.sessions - {id}).Keys;
    case CloseStep(closed, now) =>
      CloseStores(w, closed, now);
      CloseTouches(w, closed, now);
      assert (w.sessions - {id}) - {id} == w.sessions - {id};
    case SuppressStep(_, reason, now) =>
      forall other | other != key
        ensures FindSuppression(Step(cfg, w, step).suppressions, other) == FindSuppression(w.suppressions, other)
      {
        PutFinds(w.suppressions, ReconnectSuppression(key, reason, now), other);
      }
    case ClearStep(_, now) =>
      forall other | other != key
        ensures FindSuppression(Step(cfg, w, step).suppressions, other) == FindSuppression(w.suppressions, other)
      {
        DropFinds(w.suppressions, key, other);
      }
    case RecordEventStep(_, _, _, _) =>
  }

  lemma ConfinedTwice(a: World, b: World, c: World, id: SessionId, key: SessionKey)
    requires Confined(a, b, id, key) && Confined(b, c, id, key)
    ensures Confined(a, c, id, key)
  {
  }

  lemma {:induction false} ServingRun(cfg: Config, w: World, trace: seq<AdapterStep>, session: SessionSnapshot)
    requires AtOwnIds(w) && StillServes(w, session) && AllServe(trace, session)
    ensures var after := Run(cfg, w, trace);
            && AtOwnIds(after) && StillServes(after, session) && OwnKeyRun(cfg, w, trace)
            && Confined(w, after, session.sessionId, KeyOf(session))
    decreases |trace|
  {
    hide Step, Serves, AtOwnIds, StillServes, OwnKey, Confined;
    if trace == [] {
      ConfinedSame(w, session.sessionId, KeyOf(session));
    } else {
      assert Serves(trace[0], session);
      ServingStep(cfg, w, trace[0], session);
      var next := Step(cfg, w, trace[0]);
      ServingRun(cfg, next, trace[1..], session);
      ConfinedTwice(w, next, Run(cfg, w, trace), session.sessionId, KeyOf(session));
    }
  }

  lemma ConfinedSame(w: World, id: SessionId, key: SessionKey)
    ensures Confined(w, w, id, key)
  {
  }

  // ---------------------------------------------------------------- one session of a cycle

  lemma ReconcileConfined(cfg: Config, d: D.DaemonState, w: World, listed: SessionSnapshot, inputs: Inputs)
    requires AtOwnIds(w) && StillServes(w, listed)
    ensures var after := ReconcileOne(cfg, d, w, listed, inputs).0;
            && AtOwnIds(after) && StillServes(after, listed)
            && Confined(w, after, listed.sessionId, KeyOf(listed))
  {
    var trace := ReconcileTrace(cfg, d, w, listed, inputs);
    ReconcileIsRun(cfg, d, w, listed, inputs);
    ReconcileServes(cfg, d, w, listed, inputs);
    hide ReconcileOne, ReconcileTrace, Run, AllServe, Confined, AtOwnIds, StillServes;
    ServingRun(cfg, w, trace, listed);
  }

  lemma ReevaluateConfined(cfg: Config, d: D.DaemonState, runtimePeer: PeerId, w: World, session: SessionSnapshot,
                           inputs: Inputs)
    requires AtOwnIds(w) && StillServes(w, session)
    ensures var after := ReevaluateOne(cfg, d, runtimePeer, w, session, inputs).0;
            && AtOwnIds(after) && StillServes(after, session)
            && Confined(w, after, session.sessionId, KeyOf(session))
  {
    hide ReevaluateOne, ReevaluateTrace, Run, AllServe, Confined, AtOwnIds, StillServes;
    ReevaluateIsRun(cfg, d, runtimePeer, w, session, inputs);
    ReevaluateServes(cfg, d, runtimePeer, w, session, inputs);
    ServingRun(cfg, w, ReevaluateTrace(cfg, d, runtimePeer, w, session, inputs), session);
  }

  /** The sessions from position `i` on are still as they were listed. */
  ghost predicate AsListed(w: World, order: seq<SessionSnapshot>, i: nat) {
    && (forall j, k :: 0 <= j < k < |order| ==> order[j].sessionId != order[k].sessionId)
    && (forall k :: i <= k < |order| ==> order[k].sessionId in w.sessions && w.sessions[order[k].sessionId] == order[k])
  }

  lemma AsListedNext(w: World, next: World, order: seq<SessionSnapshot>, i: nat)
    requires i < |order| && AsListed(w, order, i)
    requires Confined(w, next, order[i].sessionId, KeyOf(order[i]))
    ensures AsListed(next, order, i + 1)
  {
    var id := order[i].sessionId;
    forall k | i + 1 <= k < |order|
      ensures order[k].sessionId in next.sessions && next.sessions[order[k].sessionId] == order[k]
    {
      assert order[k].sessionId in w.sessions - {id};
      assert order[k].sessionId in next.sessions - {id};
      assert (next.sessions - {id})[order[k].sessionId] == (w.sessions - {id})[order[k].sessionId];
    }
  }

  lemma ListedAsListed(w: World, order: seq<SessionSnapshot>)
    requires Lists(order, w.sessions)
    ensures AsListed(w, order, 0)
  {
  }

  // ---------------------------------------------------------------- whole cycles as runs

  function ReconcileCycle(cfg: Config, d: D.DaemonState, w: World, order: seq<SessionSnapshot>, inputs: InputStream, i: nat)
    : seq<AdapterStep>
    decreases |order| - i
  {
    if i >= |order| then []
    else
      var (next, outcome) := ReconcileOne(cfg, d, w, order[i], inputs(i));
      ReconcileTrace(cfg, d, w, order[i], inputs(i))
      + if outcome.Err? then [] else ReconcileCycle(cfg, d, next, order, inputs, i + 1)
  }

  function ReevaluateCycle(cfg: Config, d: D.DaemonState, runtimePeer: PeerId, w: World, order: seq<SessionSnapshot>,
                           inputs: InputStream, i: nat): seq<AdapterStep>
    decreases |order| - i
  {
    if i >= |order| then []
    else
      var (next, outcome) := ReevaluateOne(cfg, d, runtimePeer, w, order[i], inputs(i));
      ReevaluateTrace(cfg, d, runtimePeer, w, order[i], inputs(i))
      + if outcome.Err? then [] else ReevaluateCycle(cfg, d, runtimePeer, next, order, inputs, i + 1)
  }

  /** An operation of this adapter on a route that is shaped as planned routes are. */
  predicate OwnOperation(step: AdapterStep) {
    match step
    case ConnectStep(route, _) => RouteShaped(route)
    case MigrateStep(_, route, _) => RouteShaped(route)
    case ReachStep(_) => false
    case ForeignOpenStep(_, _, _) => false
    case ForeignCloseStep(_, _) => false
    case _ => true
  }

  predicate AllOwn(trace: seq<AdapterStep>) {
    forall i :: 0 <= i < |trace| ==> OwnOperation(trace[i])
  }

  lemma ServingIsOwn(trace: seq<AdapterStep>, session: SessionSnapshot)
    requires AllServe(trace, session)
    ensures AllOwn(trace)
  {
    hide RouteShaped;
    forall i | 0 <= i < |trace| ensures OwnOperation(trace[i]) {
      assert Serves(trace[i], session);
    }
  }

  /** A step on which every path leads to the same place: a reconcile cycle is a run of own operations. */
  lemma {:induction false} ReconcileCycleIsRun(cfg: Config, d: D.DaemonState, w: World, order: seq<SessionSnapshot>,
                                               inputs: InputStream, i: nat, entries: seq<ReconcileEntry>)
    requires AtOwnIds(w) && AsListed(w, order, i)
    ensures ReconcileFrom(cfg, d, w, order, inputs, i, entries).0 == Run(cfg, w, ReconcileCycle(cfg, d, w, order, inputs, i))
    ensures AllOwn(ReconcileCycle(cfg, d, w, order, inputs, i))
    decreases |order| - i
  {
    hide ReconcileOne, ReconcileTrace, Run, AllServe, Confined, AllOwn;
    if i >= |order| {
      RunNothing(cfg, w);
      NothingIsOwn();
    } else {
      var listed := order[i];
      var (next, outcome) := ReconcileOne(cfg, d, w, listed, inputs(i));
      var trace := ReconcileTrace(cfg, d, w, listed, inputs(i));
      ReconcileIsRun(cfg, d, w, listed, inputs(i));
      ReconcileServes(cfg, d, w, listed, inputs(i));
      ServingIsOwn(trace, listed);
      ReconcileConfined(cfg, d, w, listed, inputs(i));
      AsListedNext(w, next, order, i);
      if outcome.Ok? {
        ReconcileCycleIsRun(cfg, d, next, order, inputs, i + 1, entries + [outcome.value]);
        var rest := ReconcileCycle(cfg, d, next, order, inputs, i + 1);
        RunAppend(cfg, w, trace, rest);
        OwnAppend(trace, rest);
      } else {
        assert trace + [] == trace;
      }
    }
  }

  lemma {:induction false} ReevaluateCycleIsRun(cfg: Config, d: D.DaemonState, runtimePeer: PeerId, w: World,
                                                order: seq<SessionSnapshot>, inputs: InputStream, i: nat,
                                                tally: SessionTally)
    requires AtOwnIds(w) && AsListed(w, order, i)
    ensures ReevaluateFrom(cfg, d, runtimePeer, w, order, inputs, i, tally).0
         == Run(cfg, w, ReevaluateCycle(cfg, d, runtimePeer, w, order, inputs, i))
    ensures AllOwn(ReevaluateCycle(cfg, d, runtimePeer, w, order, inputs, i))
    decreases |order| - i
  {
    hide ReevaluateOne, ReevaluateTrace, Run, AllServe, Confined, AllOwn;
    if i >= |order| {
      RunNothing(cfg, w);
      NothingIsOwn();
    } else {
      var session := order[i];
      var (next, outcome) := ReevaluateOne(cfg, d, runtimePeer, w, session, inputs(i));
      var trace := ReevaluateTrace(cfg, d, runtimePeer, w, session, inputs(i));
      ReevaluateIsRun(cfg, d, runtimePeer, w, session, inputs(i));
      ReevaluateServes(cfg, d, runtimePeer, w, session, inputs(i));
      ServingIsOwn(trace, session);
      ReevaluateConfined(cfg, d, runtimePeer, w, session, inputs(i));
      AsListedNext(w, next, order, i);
      if outcome.Ok? {
        ReevaluateCycleIsRun(cfg, d, runtimePeer, next, order, inputs, i + 1, AddTo(tally, outcome.value));
        var rest := ReevaluateCycle(cfg, d, runtimePeer, next, order, inputs, i + 1);
        RunAppend(cfg, w, trace, rest);
        OwnAppend(trace, rest);
      } else {
        assert trace + [] == trace;
      }
    }
  }

  lemma NothingIsOwn()
    ensures AllOwn([])
  {
  }

  lemma OwnAppend(a: seq<AdapterStep>, b: seq<AdapterStep>)
    requires AllOwn(a) && AllOwn(b)
    ensures AllOwn(a + b)
  {
  }

  // ---------------------------------------------------------------- control-plane runs

  /**
   A step is one operation, a whole cycle, or one session's turn of a cycle. As turns, a cycle lets relays go
   down and other operations happen between one session and the next.
   */
  datatype ControlStep =
    | Operation(step: AdapterStep)
    | ReconcileCycleStep(d: D.DaemonState, order: seq<SessionSnapshot>, inputs: InputStream)
    | ReevaluateCycleStep(d: D.DaemonState, runtimePeer: PeerId, order: seq<SessionSnapshot>, inputs: InputStream, now: nat)
    | ReconcileTurnStep(d: D.DaemonState, listed: SessionSnapshot, turn: Inputs)
    | ReevaluateTurnStep(d: D.DaemonState, runtimePeer: PeerId, listed: SessionSnapshot, turn: Inputs)

  function Advance(cfg: Config, w: World, step: ControlStep): World {
    match step
    case Operation(op) => Step(cfg, w, op)
    case ReconcileCycleStep(d, order, inputs) => ReconcileFrom(cfg, d, w, order, inputs, 0, []).0
    case ReevaluateCycleStep(d, runtimePeer, order, inputs, now) =>
      ReevaluateSessions(cfg, d, runtimePeer, w, order, inputs, now).0
    case ReconcileTurnStep(d, listed, turn) => ReconcileOne(cfg, d, w, listed, turn).0
    case ReevaluateTurnStep(d, runtimePeer, listed, turn) => ReevaluateOne(cfg, d, runtimePeer, w, listed, turn).0
  }

  function AdvanceAll(cfg: Config, w: World, steps: seq<ControlStep>): World
    decreases |steps|
  {
    if steps == [] then w else AdvanceAll(cfg, Advance(cfg, w, steps[0]), steps[1..])
  }

  /** The adapter operations that a control-plane step performs. */
  function TraceOf(cfg: Config, w: World, step: ControlStep): seq<AdapterStep> {
    match step
    case Operation(op) => [op]
    case ReconcileCycleStep(d, order, inputs) => ReconcileCycle(cfg, d, w, order, inputs, 0)
    case ReevaluateCycleStep(d, runtimePeer, order, inputs, now) =>
      var start := RecordEventStep("authority.reevaluation_started", "authority", runtimePeer, now);
      [start] + ReevaluateCycle(cfg, d, runtimePeer, Step(cfg, w, start), order, inputs, 0)
    case ReconcileTurnStep(d, listed, turn) => ReconcileTrace(cfg, d, w, listed, turn)
    case ReevaluateTurnStep(d, runtimePeer, listed, turn) => ReevaluateTrace(cfg, d, runtimePeer, w, listed, turn)
  }

  /** A cycle lists the sessions that are live when it starts; a turn takes one whose record still has its key. */
  ghost predicate WellListed(w: World, step: ControlStep) {
    match step
    case Operation(_) => true
    case ReconcileCycleStep(_, order, _) => Lists(order, w.sessions)
    case ReevaluateCycleStep(_, _, order, _, _) => Lists(order, w.sessions)
    case ReconcileTurnStep(_, listed, _) => StillServes(w, listed)
    case ReevaluateTurnStep(_, _, listed, _) => StillServes(w, listed)
  }

  lemma AdvanceIsRun(cfg: Config, w: World, step: ControlStep)
    requires AtOwnIds(w) && WellListed(w, step)
    ensures Advance(cfg, w, step) == Run(cfg, w, TraceOf(cfg, w, step))
    ensures !step.Operation? ==> AllOwn(TraceOf(cfg, w, step))
  {
    hide Run, ReconcileCycle, ReevaluateCycle, ReconcileOne, ReevaluateOne, ReconcileTrace, ReevaluateTrace, Lists, AsListed,
         AllOwn, PushEvent, StillServes;
    match step
    case Operation(op) => RunOne(cfg, w, op);
    case ReconcileCycleStep(d, order, inputs) =>
      ListedAsListed(w, order);
      ReconcileCycleIsRun(cfg, d, w, order, inputs, 0, []);
    case ReevaluateCycleStep(d, runtimePeer, order, inputs, now) =>
      var start := RecordEventStep("authority.reevaluation_started", "authority", runtimePeer, now);
      var started := Step(cfg, w, start);
      ListedAsListed(started, order);
      ReevaluateCycleIsRun(cfg, d, runtimePeer, started, order, inputs, 0, NO_TALLY);
      RunAppend(cfg, w, [start], ReevaluateCycle(cfg, d, runtimePeer, started, order, inputs, 0));
      RunOne(cfg, w, start);
      SingleIsOwn(start);
      OwnAppend([start], ReevaluateCycle(cfg, d, runtimePeer, started, order, inputs, 0));
    case ReconcileTurnStep(d, listed, turn) => ReconcileTurnIsRun(cfg, d, w, listed, turn);
    case ReevaluateTurnStep(d, runtimePeer, listed, turn) => ReevaluateTurnIsRun(cfg, d, runtimePeer, w, listed, turn);
  }

  lemma ReconcileTurnIsRun(cfg: Config, d: D.DaemonState, w: World, listed: SessionSnapshot, turn: Inputs)
    requires AtOwnIds(w) && StillServes(w, listed)
    ensures ReconcileOne(cfg, d, w, listed, turn).0 == Run(cfg, w, ReconcileTrace(cfg, d, w, listed, turn))
    ensures AllOwn(ReconcileTrace(cfg, d, w, listed, turn))
  {
    ReconcileIsRun(cfg, d, w, listed, turn);
    ReconcileServes(cfg, d, w, listed, turn);
    hide ReconcileOne, ReconcileTrace, Run, AllServe, AllOwn;
    ServingIsOwn(ReconcileTrace(cfg, d, w, listed, turn), listed);
  }

  lemma ReevaluateTurnIsRun(cfg: Config, d: D.DaemonState, runtimePeer: PeerId, w: World, listed: SessionSnapshot,
                            turn: Inputs)
    requires AtOwnIds(w) && StillServes(w, listed)
    ensures ReevaluateOne(cfg, d, runtimePeer, w, listed, turn).0
         == Run(cfg, w, ReevaluateTrace(cfg, d, runtimePeer, w, listed, turn))
    ensures AllOwn(ReevaluateTrace(cfg, d, runtimePeer, w, listed, turn))
  {
    hide ReevaluateOne, ReevaluateTrace, Run, AllServe, AllOwn;
    ReevaluateIsRun(cfg, d, runtimePeer, w, listed, turn);
    ReevaluateServes(cfg, d, runtimePeer, w, listed, turn);
    ServingIsOwn(ReevaluateTrace(cfg, d, runtimePeer, w, listed, turn), listed);
  }

  lemma SingleIsOwn(step: AdapterStep)
    requires step.RecordEventStep?
    ensures AllOwn([step])
  {
  }

  // ---------------------------------------------------------------- relays are conserved

  predicate AttemptFresh(w: World, step: AdapterStep) {
    match step
    case ConnectStep(route, inputs) => FreshAttempt(w, route, inputs)
    case MigrateStep(_, route, inputs) => FreshAttempt(w, route, inputs)
    case _ => true
  }

  ghost predicate AttemptsFresh(cfg: Config, w: World, trace: seq<AdapterStep>)
    decreases |trace|
  {
    trace != [] ==> AttemptFresh(w, trace[0]) && AttemptsFresh(cfg, Step(cfg, w, trace[0]), trace[1..])
  }

  lemma {:induction false} OwnIsAdmissible(cfg: Config, w: World, local: PeerId, trace: seq<AdapterStep>)
    requires AllOwn(trace) && AttemptsFresh(cfg, w, trace)
    ensures AdmissibleRun(cfg, w, local, trace)
    decreases |trace|
  {
    hide Step, RouteShaped, FreshAttempt, OpenFor;
    if trace != [] {
      assert OwnOperation(trace[0]);
      OwnIsAdmissible(cfg, Step(cfg, w, trace[0]), local, trace[1..]);
    }
  }

  /** What is asked of control-plane steps: operations are admissible, cycles draw fresh attempt ids. */
  ghost predicate Orderly(cfg: Config, w: World, local: PeerId, step: ControlStep) {
    && WellListed(w, step)
    && if step.Operation? then Admissible(w, local, step.step) else AttemptsFresh(cfg, w, TraceOf(cfg, w, step))
  }

  ghost predicate OrderlyRun(cfg: Config, w: World, local: PeerId, steps: seq<ControlStep>)
    decreases |steps|
  {
    steps != [] ==> Orderly(cfg, w, local, steps[0]) && OrderlyRun(cfg, Advance(cfg, w, steps[0]), local, steps[1..])
  }

  ghost function ControlLeak(cfg: Config, w: World, steps: seq<ControlStep>): set<Lease>
    decreases |steps|
  {
    if steps == [] then {}
    else RunLeak(cfg, w, TraceOf(cfg, w, steps[0])) + ControlLeak(cfg, Advance(cfg, w, steps[0]), steps[1..])
  }

  lemma AdvanceConserves(cfg: Config, w: World, local: PeerId, step: ControlStep)
    requires cfg.localIdentity == Some(local) && Sound(w, local) && Orderly(cfg, w, local, step)
    ensures var after := Advance(cfg, w, step);
            && Sound(after, local)
            && Leaked(after, local) == Leaked(w, local) + RunLeak(cfg, w, TraceOf(cfg, w, step))
  {
    SoundAtOwnIds(w, local);
    hide Advance, Run, RunLeak, Sound, Leaked, AllOwn, AttemptsFresh, Admissible, WellListed;
    AdvanceIsRun(cfg, w, step);
    var trace := TraceOf(cfg, w, step);
    if step.Operation? {
      assert trace == [step.step];
      OneAdmissible(cfg, w, local, step.step);
    } else {
      OwnIsAdmissible(cfg, w, local, trace);
    }
    RunConserves(cfg, w, local, trace);
  }

  lemma OneAdmissible(cfg: Config, w: World, local: PeerId, step: AdapterStep)
    requires Admissible(w, local, step)
    ensures AdmissibleRun(cfg, w, local, [step])
  {
    hide Step, Admissible;
    assert [step][1..] == [];
  }

  lemma SoundAtOwnIds(w: World, local: PeerId)
    requires Sound(w, local)
    ensures AtOwnIds(w)
  {
  }

  /**
   Relay conservation across the control plane: over any orderly run the live relay records hold open
   sessions, one each, and the open sessions without a holder are exactly those left by blocked closes.
   */
  lemma {:induction false} ControlConserves(cfg: Config, w: World, local: PeerId, steps: seq<ControlStep>)
    requires cfg.localIdentity == Some(local) && Sound(w, local) && OrderlyRun(cfg, w, local, steps)
    ensures var after := AdvanceAll(cfg, w, steps);
            && Sound(after, local)
            && Leaked(after, local) == Leaked(w, local) + ControlLeak(cfg, w, steps)
    decreases |steps|
  {
    hide Advance, Sound, Leaked, Orderly, TraceOf, RunLeak;
    if steps != [] {
      AdvanceConserves(cfg, w, local, steps[0]);
      ControlConserves(cfg, Advance(cfg, w, steps[0]), local, steps[1..]);
    }
  }

  // ---------------------------------------------------------------- suppressed keys stay down

  lemma ConfinedKeepsDown(w: World, next: World, session: SessionSnapshot, key: SessionKey)
    requires HeldDown(w, key) && AtOwnIds(next) && StillServes(next, session)
    requires Confined(w, next, session.sessionId, KeyOf(session)) && KeyOf(session) != key
    ensures HeldDown(next, key)
  {
    var id := session.sessionId;
    forall other | other in next.sessions ensures KeyOf(next.sessions[other]) != key {
      if other != id {
        assert other in next.sessions - {id} && other in w.sessions - {id};
        assert (next.sessions - {id})[other] == (w.sessions - {id})[other];
      }
    }
  }

  lemma {:induction false} ReconcileKeepsDown(cfg: Config, d: D.DaemonState, w: World, order: seq<SessionSnapshot>,
                                              inputs: InputStream, i: nat, entries: seq<ReconcileEntry>, key: SessionKey)
    requires HeldDown(w, key) && AtOwnIds(w) && AsListed(w, order, i)
    ensures HeldDown(ReconcileFrom(cfg, d, w, order, inputs, i, entries).0, key)
    decreases |order| - i
  {
    hide ReconcileOne, Confined, FindSuppression;
    if i < |order| {
      var (next, outcome) := ReconcileOne(cfg, d, w, order[i], inputs(i));
      ReconcileConfined(cfg, d, w, order[i], inputs(i));
      AsListedNext(w, next, order, i);
      ConfinedKeepsDown(w, next, order[i], key);
      if outcome.Ok? {
        ReconcileKeepsDown(cfg, d, next, order, inputs, i + 1, entries + [outcome.value], key);
      }
    }
  }

  lemma {:induction false} ReevaluateKeepsDown(cfg: Config, d: D.DaemonState, runtimePeer: PeerId, w: World,
                                               order: seq<SessionSnapshot>, inputs: InputStream, i: nat,
                                               tally: SessionTally, key: SessionKey)
    requires HeldDown(w, key) && AtOwnIds(w) && AsListed(w, order, i)
    ensures HeldDown(ReevaluateFrom(cfg, d, runtimePeer, w, order, inputs, i, tally).0, key)
    decreases |order| - i
  {
    hide ReevaluateOne, Confined, FindSuppression;
    if i < |order| {
      var (next, outcome) := ReevaluateOne(cfg, d, runtimePeer, w, order[i], inputs(i));
      ReevaluateConfined(cfg, d, runtimePeer, w, order[i], inputs(i));
      AsListedNext(w, next, order, i);
      ConfinedKeepsDown(w, next, order[i], key);
      if outcome.Ok? {
        ReevaluateKeepsDown(cfg, d, runtimePeer, next, order, inputs, i + 1, AddTo(tally, outcome.value), key);
      }
    }
  }

  /** Cycles list the live sessions; operations migrate on own keys and do not clear this key; turns are of other keys. */
  ghost predicate LeavesDown(w: World, step: ControlStep, key: SessionKey) {
    && WellListed(w, step)
    && (step.Operation? ==> OwnKey(w, step.step) && !Clears(step.step, key))
    && (step.ReconcileTurnStep? || step.ReevaluateTurnStep? ==> KeyOf(step.listed) != key)
  }

  ghost predicate RunLeavesDown(cfg: Config, w: World, steps: seq<ControlStep>, key: SessionKey)
    decreases |steps|
  {
    steps != [] ==> LeavesDown(w, steps[0], key) && RunLeavesDown(cfg, Advance(cfg, w, steps[0]), steps[1..], key)
  }

  lemma AdvanceKeepsDown(cfg: Config, w: World, step: ControlStep, key: SessionKey)
    requires HeldDown(w, key) && LeavesDown(w, step, key)
    ensures HeldDown(Advance(cfg, w, step), key)
  {
    hide AdapterRuns.Step, Lists, AsListed, PushEvent, FindSuppression, ReconcileOne, ReevaluateOne, Confined;
    match step
    case Operation(op) => StepKeepsDown(cfg, w, op, key);
    case ReconcileCycleStep(d, order, inputs) =>
      ListedAsListed(w, order);
      ReconcileKeepsDown(cfg, d, w, order, inputs, 0, [], key);
    case ReevaluateCycleStep(d, runtimePeer, order, inputs, now) =>
      var started := Emit(w, "authority.reevaluation_started", "authority", runtimePeer, now);
      ListedAsListed(started, order);
      ReevaluateKeepsDown(cfg, d, runtimePeer, started, order, inputs, 0, NO_TALLY, key);
    case ReconcileTurnStep(d, listed, turn) =>
      ReconcileConfined(cfg, d, w, listed, turn);
      ConfinedKeepsDown(w, ReconcileOne(cfg, d, w, listed, turn).0, listed, key);
    case ReevaluateTurnStep(d, runtimePeer, listed, turn) =>
      ReevaluateConfined(cfg, d, runtimePeer, w, listed, turn);
      ConfinedKeepsDown(w, ReevaluateOne(cfg, d, runtimePeer, w, listed, turn).0, listed, key);
  }

  /**
   A suppressed key stays down: while nobody clears it, no sequence of operations, reconcile cycles and
   reevaluations, under any durable states, brings a live session with that key back.
   */
  lemma {:induction false} SuppressedStaysDown(cfg: Config, w: World, steps: seq<ControlStep>, key: SessionKey)
    requires HeldDown(w, key) && RunLeavesDown(cfg, w, steps, key)
    ensures HeldDown(AdvanceAll(cfg, w, steps), key)
    decreases |steps|
  {
    hide Advance, HeldDown, LeavesDown;
    if steps != [] {
      AdvanceKeepsDown(cfg, w, steps[0], key);
      SuppressedStaysDown(cfg, Advance(cfg, w, steps[0]), steps[1..], key);
    }
  }
}
