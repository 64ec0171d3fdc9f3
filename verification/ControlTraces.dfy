/**
 Every cycle of the control plane is a run of adapter operations. What runs keep (relay conservation,
 one session per key, suppressed keys) therefore holds across reconcile and reevaluate as well.
 */
module ControlTraces {
  import opened Model
  import opened Transport
  import opened RelayLeases
  import opened AdapterRuns
  import opened SessionKeys
  import opened ControlPlane
  import D = DurableState

  // ---------------------------------------------------------------- runs, one step and concatenation

  lemma {:induction false} RunAppend(cfg: Config, w: World, a: seq<AdapterStep>, b: seq<AdapterStep>)
    ensures Run(cfg, w, a + b) == Run(cfg, Run(cfg, w, a), b)
    decreases |a|
  {
    hide Step;
    if a == [] {
      assert a + b == b;
    } else {
      assert (a + b)[1..] == a[1..] + b;
      RunAppend(cfg, Step(cfg, w, a[0]), a[1..], b);
    }
  }

  lemma RunOne(cfg: Config, w: World, step: AdapterStep)
    ensures Run(cfg, w, [step]) == Step(cfg, w, step)
  {
    hide Step;
    assert [step][1..] == [];
  }

  // ---------------------------------------------------------------- traces of one session

  function FailTrace(session: SessionSnapshot, closureReason: SessionClosureReason, stateReason: string, now: nat)
    : seq<AdapterStep>
  {
    [UpdateStep(session.sessionId, Failed, Some(closureReason), Some(stateReason), now)]
    + ([RecordEventStep("path.failed", "session", session.sessionId, now)] + [CloseStep(session, now)])
  }

  lemma FailIsRun(cfg: Config, w: World, session: SessionSnapshot, closureReason: SessionClosureReason,
                  stateReason: string, now: nat)
    ensures FailAndClose(w, session, closureReason, stateReason, now).0
         == Run(cfg, w, FailTrace(session, closureReason, stateReason, now))
  {
    hide CloseRuntimeSession, UpdateSessionState, PushEvent, Run;
    var a := UpdateStep(session.sessionId, Failed, Some(closureReason), Some(stateReason), now);
    var b := RecordEventStep("path.failed", "session", session.sessionId, now);
    var c := CloseStep(session, now);
    RunAppend(cfg, w, [a], [b] + [c]);
    RunOne(cfg, w, a);
    RunAppend(cfg, Step(cfg, w, a), [b], [c]);
    RunOne(cfg, Step(cfg, w, a), b);
    RunOne(cfg, Step(cfg, Step(cfg, w, a), b), c);
  }

  /** Mark, migrate, and close on failure: the shape that both loops share. */
  function MoveTrace(cfg: Config, w: World, session: SessionSnapshot, route: RoutePlan, marking: string,
                     failure: string, inputs: Inputs): seq<AdapterStep>
  {
    var id := session.sessionId;
    var mark := UpdateStep(id, Migrating, None, Some(marking), inputs.now);
    var outcome := Migrate(cfg, Step(cfg, w, mark), id, route, inputs).1;
    [mark] + ([MigrateStep(id, route, inputs)]
              + match outcome
                case Ok(_) => []
                case Err(error) => FailTrace(session, LocalRuntimeFailure, failure + ErrorText(error), inputs.now))
  }

  lemma MoveIsRun(cfg: Config, w: World, session: SessionSnapshot, route: RoutePlan, marking: string, failure: string,
                  inputs: Inputs)
    ensures var marked := UpdateSessionState(w, session.sessionId, Migrating, None, Some(marking), inputs.now);
            var (moved, outcome) := Migrate(cfg, marked, session.sessionId, route, inputs);
            Run(cfg, w, MoveTrace(cfg, w, session, route, marking, failure, inputs)) ==
              match outcome
              case Ok(_) => moved
              case Err(error) =>
                FailAndClose(moved, session, LocalRuntimeFailure, failure + ErrorText(error), inputs.now).0
  {
    hide Migrate, UpdateSessionState, FailAndClose, Run, FailTrace;
    var id := session.sessionId;
    var mark, move := UpdateStep(id, Migrating, None, Some(marking), inputs.now), MigrateStep(id, route, inputs);
    var marked := Step(cfg, w, mark);
    var (moved, outcome) := Migrate(cfg, marked, id, route, inputs);
    var tail := match outcome
                case Ok(_) => []
                case Err(error) => FailTrace(session, LocalRuntimeFailure, failure + ErrorText(error), inputs.now);
    RunAppend(cfg, w, [mark], [move] + tail);
    RunOne(cfg, w, mark);
    RunAppend(cfg, marked, [move], tail);
    RunOne(cfg, marked, move);
    if outcome.Err? {
      FailIsRun(cfg, moved, session, LocalRuntimeFailure, failure + ErrorText(outcome.error), inputs.now);
    } else {
      RunNothing(cfg, moved);
    }
  }

  lemma RunNothing(cfg: Config, w: World)
    ensures Run(cfg, w, []) == w
  {
  }

  const RECONCILE_MARK := "selected path changed; session migrating"
  const RECONCILE_FAILURE := "session migration failed: "
  const REEVALUATE_FAILURE := "authority reevaluation migration failed: "

  function VerdictTrace(cfg: Config, d: D.DaemonState, w: World, session: SessionSnapshot, inputs: Inputs)
    : seq<AdapterStep>
  {
    var id, now := session.sessionId, inputs.now;
    match Judge(d, session)
    case NoProtocol => FailTrace(session, LocalRuntimeFailure, "session is missing negotiated protocol", now)
    case Denied(reason) => [UpdateStep(id, Closing, Some(PolicyRejected), Some(reason), now)] + [CloseStep(session, now)]
    case NoPath => FailTrace(session, PathExhaustion, "no route is available for session", now)
    case Broken(_) => []
    case Settled => [UpdateStep(id, Active, None, Some("selected path still matches active session"), now)]
    case Misplaced(route) => MoveTrace(cfg, w, session, route, RECONCILE_MARK, RECONCILE_FAILURE, inputs)
  }

  function ReconcileTrace(cfg: Config, d: D.DaemonState, w: World, listed: SessionSnapshot, inputs: Inputs)
    : seq<AdapterStep>
  {
    var mark := UpdateStep(listed.sessionId, Reconciling, None, Some("daemon reconcile cycle"), inputs.now);
    var marked := Step(cfg, w, mark);
    [mark] + if listed.sessionId in marked.sessions then
               VerdictTrace(cfg, d, marked, marked.sessions[listed.sessionId], inputs)
             else []
  }

  lemma ReconcileIsRun(cfg: Config, d: D.DaemonState, w: World, listed: SessionSnapshot, inputs: Inputs)
    requires listed.sessionId in w.sessions ==> w.sessions[listed.sessionId].sessionId == listed.sessionId
    ensures ReconcileOne(cfg, d, w, listed, inputs).0 == Run(cfg, w, ReconcileTrace(cfg, d, w, listed, inputs))
  {
    var id := listed.sessionId;
    var mark := UpdateStep(id, Reconciling, None, Some("daemon reconcile cycle"), inputs.now);
    var marked := Step(cfg, w, mark);
    assert id in marked.sessions ==> marked.sessions[id].sessionId == id;
    hide Run, UpdateSessionState, FailAndClose, FailTrace, MoveTrace, Migrate, CloseRuntimeSession, Judge;
    RunOne(cfg, w, mark);
    if id in marked.sessions {
      var session := marked.sessions[id];
      RunAppend(cfg, w, [mark], VerdictTrace(cfg, d, marked, session, inputs));
      match Judge(d, session) {
        case NoProtocol =>
          FailIsRun(cfg, marked, session, LocalRuntimeFailure, "session is missing negotiated protocol", inputs.now);
        case Denied(reason) =>
          var closing := UpdateStep(id, Closing, Some(PolicyRejected), Some(reason), inputs.now);
          RunAppend(cfg, marked, [closing], [CloseStep(session, inputs.now)]);
          RunOne(cfg, marked, closing);
          RunOne(cfg, Step(cfg, marked, closing), CloseStep(session, inputs.now));
        case NoPath =>
          FailIsRun(cfg, marked, session, PathExhaustion, "no route is available for session", inputs.now);
        case Broken(_) => RunNothing(cfg, marked);
        case Settled =>
          RunOne(cfg, marked, UpdateStep(id, Active, None, Some("selected path still matches active session"), inputs.now));
        case Misplaced(route) =>
          MoveIsRun(cfg, marked, session, route, RECONCILE_MARK, RECONCILE_FAILURE, inputs);
      }
    } else {
      RunAppend(cfg, w, [mark], []);
      RunNothing(cfg, marked);
    }
  }

  function EnforceTrace(session: SessionSnapshot, reason: string, now: nat): seq<AdapterStep> {
    [SuppressStep(KeyOf(session), reason, now)]
    + ([UpdateStep(session.sessionId, Closing, Some(PolicyRejected), Some(reason), now)]
       + ([RecordEventStep("authority.policy_enforced", "session", session.sessionId, now)] + [CloseStep(session, now)]))
  }

  lemma EnforceIsRun(cfg: Config, w: World, session: SessionSnapshot, cause: PolicyCause, reason: string, now: nat)
    ensures EnforceOn(w, session, cause, reason, now).0 == Run(cfg, w, EnforceTrace(session, reason, now))
  {
    hide CloseRuntimeSession, UpdateSessionState, SuppressReconnect, PushEvent, Run;
    var a := SuppressStep(KeyOf(session), reason, now);
    var b := UpdateStep(session.sessionId, Closing, Some(PolicyRejected), Some(reason), now);
    var c := RecordEventStep("authority.policy_enforced", "session", session.sessionId, now);
    var e := CloseStep(session, now);
    var w1 := Step(cfg, w, a);
    var w2 := Step(cfg, w1, b);
    var w3 := Step(cfg, w2, c);
    RunAppend(cfg, w, [a], [b] + ([c] + [e]));
    RunOne(cfg, w, a);
    RunAppend(cfg, w1, [b], [c] + [e]);
    RunOne(cfg, w1, b);
    RunAppend(cfg, w2, [c], [e]);
    RunOne(cfg, w2, c);
    RunOne(cfg, w3, e);
  }

  function DegradeTrace(session: SessionSnapshot, reason: string, now: nat): seq<AdapterStep> {
    [UpdateStep(session.sessionId, Degraded, None, Some(reason), now)]
    + [RecordEventStep("path.degraded", "session", session.sessionId, now)]
  }

  lemma DegradeIsRun(cfg: Config, w: World, session: SessionSnapshot, reason: string, now: nat)
    ensures DegradeSession(w, session, reason, now) == Run(cfg, w, DegradeTrace(session, reason, now))
  {
    hide UpdateSessionState, PushEvent, Run;
    var a := UpdateStep(session.sessionId, Degraded, None, Some(reason), now);
    var b := RecordEventStep("path.degraded", "session", session.sessionId, now);
    RunAppend(cfg, w, [a], [b]);
    RunOne(cfg, w, a);
    RunOne(cfg, Step(cfg, w, a), b);
  }

  function RehomeTrace(cfg: Config, w: World, session: SessionSnapshot, route: RoutePlan, inputs: Inputs): seq<AdapterStep> {
    var start := RecordEventStep("path.migration_started", "session", session.sessionId, inputs.now);
    var started := Step(cfg, w, start);
    var marked := UpdateSessionState(started, session.sessionId, Migrating, None, Some(BETTER_PATH), inputs.now);
    var (moved, outcome) := Migrate(cfg, marked, session.sessionId, route, inputs);
    [start]
    + (MoveTrace(cfg, started, session, route, BETTER_PATH, REEVALUATE_FAILURE, inputs)
       + match outcome
         case Ok(_) => []
         case Err(error) =>
           if FailAndClose(moved, session, LocalRuntimeFailure, REEVALUATE_FAILURE + ErrorText(error), inputs.now).1.Err? then []
           else [SuppressStep(KeyOf(session), REEVALUATE_FAILURE + ErrorText(error), inputs.now)])
  }

  lemma RehomeIsRun(cfg: Config, w: World, session: SessionSnapshot, route: RoutePlan, cleared: bool, inputs: Inputs)
    ensures Rehome(cfg, w, session, route, cleared, inputs).0 == Run(cfg, w, RehomeTrace(cfg, w, session, route, inputs))
  {
    hide Migrate, UpdateSessionState, FailAndClose, SuppressReconnect, PushEvent, Run, MoveTrace;
    var start := RecordEventStep("path.migration_started", "session", session.sessionId, inputs.now);
    var started := Step(cfg, w, start);
    var move := MoveTrace(cfg, started, session, route, BETTER_PATH, REEVALUATE_FAILURE, inputs);
    var trace := RehomeTrace(cfg, w, session, route, inputs);
    var tail := trace[1 + |move|..];
    assert trace == [start] + (move + tail);
    RunAppend(cfg, w, [start], move + tail);
    RunOne(cfg, w, start);
    RunAppend(cfg, started, move, tail);
    MoveIsRun(cfg, started, session, route, BETTER_PATH, REEVALUATE_FAILURE, inputs);
    var after := Run(cfg, started, move);
    if tail == [] {
      RunNothing(cfg, after);
    } else {
      RunOne(cfg, after, tail[0]);
      assert tail == [tail[0]];
    }
  }

  function KeepTrace(cfg: Config, d: D.DaemonState, w: World, session: SessionSnapshot, inputs: Inputs): seq<AdapterStep> {
    var id, now := session.sessionId, inputs.now;
    var clear := ClearStep(KeyOf(session), now);
    [clear]
    + match D.PlanRoute(d, session.peer, session.protocol, session.class_)
      case Ok(route) =>
        if SessionMatchesRoute(session, route) then
          (if session.state == Degraded then
             [UpdateStep(id, Active, None, Some("authority reevaluation restored the selected path posture"), now)]
           else [])
        else if session.migrationCapable then RehomeTrace(cfg, Step(cfg, w, clear), session, route, inputs)
        else DegradeTrace(session, CANNOT_MIGRATE, now)
      case Err(NoRouteTo(_)) => DegradeTrace(session, NO_REPLACEMENT, now)
      case Err(_) => []
  }

  lemma KeepIsRun(cfg: Config, d: D.DaemonState, w: World, session: SessionSnapshot, inputs: Inputs)
    ensures KeepOrMove(cfg, d, w, session, inputs).0 == Run(cfg, w, KeepTrace(cfg, d, w, session, inputs))
  {
    hide UpdateSessionState, ClearSuppression, Run, Rehome, RehomeTrace, DegradeSession, DegradeTrace, SessionMatchesRoute,
         D.PlanRoute;
    var clear := ClearStep(KeyOf(session), inputs.now);
    var w1 := Step(cfg, w, clear);
    var trace := KeepTrace(cfg, d, w, session, inputs);
    assert trace == [clear] + trace[1..];
    RunAppend(cfg, w, [clear], trace[1..]);
    RunOne(cfg, w, clear);
    match D.PlanRoute(d, session.peer, session.protocol, session.class_) {
      case Ok(route) =>
        if SessionMatchesRoute(session, route) {
          if session.state == Degraded {
            RunOne(cfg, w1, trace[1]);
            assert trace[1..] == [trace[1]];
          } else {
            RunNothing(cfg, w1);
          }
        } else if session.migrationCapable {
          RehomeIsRun(cfg, w1, session, route, FindSuppression(w.suppressions, KeyOf(session)).Some?, inputs);
        } else {
          DegradeIsRun(cfg, w1, session, CANNOT_MIGRATE, inputs.now);
        }
      case Err(NoRouteTo(_)) => DegradeIsRun(cfg, w1, session, NO_REPLACEMENT, inputs.now);
      case Err(_) => RunNothing(cfg, w1);
    }
  }

  function ReevaluateTrace(cfg: Config, d: D.DaemonState, runtimePeer: PeerId, w: World, session: SessionSnapshot,
                           inputs: Inputs): seq<AdapterStep>
  {
    match session.protocol
    case None => []
    case Some(protocol) =>
      match Enforcement(d, runtimePeer, session.peer, protocol)
      case Some((cause, reason)) => EnforceTrace(session, reason, inputs.now)
      case None => KeepTrace(cfg, d, w, session, inputs)
  }

  lemma ReevaluateIsRun(cfg: Config, d: D.DaemonState, runtimePeer: PeerId, w: World, session: SessionSnapshot,
                        inputs: Inputs)
    ensures ReevaluateOne(cfg, d, runtimePeer, w, session, inputs).0
         == Run(cfg, w, ReevaluateTrace(cfg, d, runtimePeer, w, session, inputs))
  {
    hide EnforceOn, EnforceTrace, KeepOrMove, KeepTrace, Run, Enforcement;
    if session.protocol.Some? {
      match Enforcement(d, runtimePeer, session.peer, session.protocol.value)
      case Some(enforced) => EnforceIsRun(cfg, w, session, enforced.0, enforced.1, inputs.now);
      case None => KeepIsRun(cfg, d, w, session, inputs);
    } else {
      RunNothing(cfg, w);
    }
  }
}
