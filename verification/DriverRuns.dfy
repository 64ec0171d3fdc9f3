/**
 Runs of the reconnect driver, interleaved with any other operations: how often it dials, how long it
 waits, and when it gives up.
 */
module DriverRuns {
  import opened Model
  import opened Transport
  import opened RelayLeases
  import opened AdapterRuns
  import S = SessionKeys
  import opened ControlPlane
  import opened ControlTraces
  import opened ControlRuns
  import opened Driver
  import F = SessionFields
  import Texts
  import D = DurableState

  // ---------------------------------------------------------------- attempts by key

  /** Storing an attempt shows for its key only. */
  lemma {:induction false} PutAttemptFinds(s: seq<ReconnectAttempt>, attempt: ReconnectAttempt, key: SessionKey)
    ensures FindAttempt(PutAttempt(s, attempt), key) == if key == attempt.key then Some(attempt) else FindAttempt(s, key)
  {
    if s != [] {
      if s[0].key != attempt.key {
        PutAttemptFinds(s[1..], attempt, key);
        assert ([s[0]] + PutAttempt(s[1..], attempt))[1..] == PutAttempt(s[1..], attempt);
      } else {
        assert ([attempt] + s[1..])[1..] == s[1..];
      }
    }
  }

  /** Dropping a key removes its attempt and no other. */
  lemma {:induction false} DropAttemptFinds(s: seq<ReconnectAttempt>, dropped: SessionKey, key: SessionKey)
    ensures FindAttempt(DropAttempt(s, dropped), key) == if key == dropped then None else FindAttempt(s, key)
  {
    if s != [] {
      DropAttemptFinds(s[1..], dropped, key);
      var rest := DropAttempt(s[1..], dropped);
      assert ([s[0]] + rest)[1..] == rest;
    }
  }

  // ---------------------------------------------------------------- backoff

  lemma {:induction false} Pow2Grows(a: nat, b: nat)
    requires a <= b
    ensures 1 <= Pow2(a) <= Pow2(b)
    decreases b
  {
    if a < b {
      Pow2Grows(a, b - 1);
    } else if b > 0 {
      Pow2Grows(a - 1, b - 1);
    }
  }

  /** The wait never shrinks from one failure to the next, and never exceeds the maximum. */
  lemma BackoffGrows(j: nat, k: nat, base: nat, maxBackoff: nat)
    requires 1 <= j <= k
    ensures Backoff(j, base, maxBackoff) <= Backoff(k, base, maxBackoff) <= maxBackoff
    ensures base <= U64_MAX ==> Backoff(1, base, maxBackoff) == Min(base, maxBackoff)
  {
    var a, b := Min(j - 1, 16), Min(k - 1, 16);
    Pow2Grows(a, b);
    assert Pow2(0) == 1;
    var x, y := Pow2(a), Pow2(b);
    hide Pow2;
    Products(base, x, y);
  }

  lemma Products(base: nat, x: nat, y: nat)
    requires x <= y
    ensures base * x <= base * y
  {
  }

  function DriverBackoff(count: nat): nat
    requires count >= 1
  {
    Backoff(count, RECONNECT_BASE_BACKOFF_SECS, RECONNECT_MAX_BACKOFF_SECS)
  }

  /** The waits after the failures that are followed by another dial. */
  lemma DriverWaits()
    ensures DriverBackoff(1) == 5 && DriverBackoff(2) == 10 && DriverBackoff(3) == 20 && DriverBackoff(4) == 40
  {
    assert Pow2(1) == 2;
    assert Pow2(2) == 4;
    assert Pow2(3) == 8;
  }

  // ---------------------------------------------------------------- runs

  datatype DriverStep = CycleStep(c: Cycle) | OtherStep(step: ControlStep)

  function Turn(cfg: Config, w: World, s: DriverStep): World {
    match s
    case CycleStep(c) => EnsureTarget(cfg, w, c).0
    case OtherStep(step) => Advance(cfg, w, step)
  }

  function Turns(cfg: Config, w: World, steps: seq<DriverStep>): World
    decreases |steps|
  {
    if steps == [] then w else Turns(cfg, Turn(cfg, w, steps[0]), steps[1..])
  }

  /** The step is a cycle that dials for this key. */
  predicate Dials(w: World, s: DriverStep, key: SessionKey) {
    s.CycleStep? && GateOf(w, s.c) == Dial(key)
  }

  function DialCount(cfg: Config, w: World, steps: seq<DriverStep>, key: SessionKey): nat
    decreases |steps|
  {
    if steps == [] then 0
    else One(Dials(w, steps[0], key)) + DialCount(cfg, Turn(cfg, w, steps[0]), steps[1..], key)
  }

  /** The step clears the key's record: its session is there, it is held back, a dial succeeded, or somebody asked. */
  predicate Clears(cfg: Config, w: World, s: DriverStep, key: SessionKey) {
    match s
    case CycleStep(c) =>
      (match GateOf(w, c)
       case Reuse(session) => KeyOf(session) == key
       case HeldBack(held, _) => held == key
       case Dial(dialed) => dialed == key && RealizeTarget(cfg, w, c, dialed).1.Ok?
       case _ => false)
    case OtherStep(Operation(ClearAttemptStep(cleared, _, _))) => cleared == key
    case OtherStep(_) => false
  }

  /** Only the driver schedules attempts for the key. */
  predicate LeavesScheduling(s: DriverStep, key: SessionKey) {
    match s
    case OtherStep(Operation(ScheduleStep(other, _, _, _, _, _))) => other != key
    case _ => true
  }

  predicate AllLeaveScheduling(steps: seq<DriverStep>, key: SessionKey) {
    forall i :: 0 <= i < |steps| ==> LeavesScheduling(steps[i], key)
  }

  /** No step of the run clears the key's record. */
  ghost predicate ClearFree(cfg: Config, w: World, steps: seq<DriverStep>, key: SessionKey)
    decreases |steps|
  {
    steps != [] ==> !Clears(cfg, w, steps[0], key) && ClearFree(cfg, Turn(cfg, w, steps[0]), steps[1..], key)
  }

  // ---------------------------------------------------------------- who touches the attempts

  lemma FailKeepsAttempts(w: World, session: SessionSnapshot, reason: SessionClosureReason, text: string, now: nat)
    ensures FailAndClose(w, session, reason, text, now).0.attempts == w.attempts
  {
    hide CloseRuntimeSession, PushEvent;
    var failed := UpdateSessionState(w, session.sessionId, Failed, Some(reason), Some(text), now);
    S.CloseTouches(Emit(failed, "path.failed", "session", session.sessionId, now), session, now);
  }

  lemma MoveKeepsAttempts(cfg: Config, w: World, session: SessionSnapshot, route: RoutePlan, inputs: Inputs)
    ensures MoveSession(cfg, w, session, route, inputs).0.attempts == w.attempts
  {
    hide Migrate, FailAndClose, PushEvent;
    var marked := UpdateSessionState(w, session.sessionId, Migrating, None,
                                     Some("selected path changed; session migrating"), inputs.now);
    S.MigrateTouches(cfg, marked, session.sessionId, route, inputs);
    var (moved, outcome) := Migrate(cfg, marked, session.sessionId, route, inputs);
    if outcome.Err? {
      FailKeepsAttempts(moved, session, LocalRuntimeFailure, "session migration failed: " + ErrorText(outcome.error),
                        inputs.now);
    }
  }

  lemma ReconcileKeepsAttempts(cfg: Config, d: D.DaemonState, w: World, listed: SessionSnapshot, inputs: Inputs)
    ensures ReconcileOne(cfg, d, w, listed, inputs).0.attempts == w.attempts
  {
    hide MoveSession, FailAndClose, CloseRuntimeSession, PushEvent, Judge;
    var id, now := listed.sessionId, inputs.now;
    var marked := UpdateSessionState(w, id, Reconciling, None, Some("daemon reconcile cycle"), now);
    if id in marked.sessions {
      var session := marked.sessions[id];
      match Judge(d, session)
      case NoProtocol =>
        FailKeepsAttempts(marked, session, LocalRuntimeFailure, "session is missing negotiated protocol", now);
      case Denied(reason) =>
        var closing := UpdateSessionState(marked, id, Closing, Some(PolicyRejected), Some(reason), now);
        S.CloseTouches(closing, session, now);
      case NoPath => FailKeepsAttempts(marked, session, PathExhaustion, "no route is available for session", now);
      case Misplaced(route) => MoveKeepsAttempts(cfg, marked, session, route, inputs);
      case _ =>
    }
  }

  lemma EnforceKeepsAttempts(w: World, session: SessionSnapshot, cause: PolicyCause, reason: string, now: nat)
    ensures EnforceOn(w, session, cause, reason, now).0.attempts == w.attempts
  {
    hide CloseRuntimeSession, PushEvent, FindSuppression, PutSuppression;
    var suppressed := SuppressReconnect(w, KeyOf(session), reason, now);
    var closing := UpdateSessionState(suppressed, session.sessionId, Closing, Some(PolicyRejected), Some(reason), now);
    S.CloseTouches(Emit(closing, "authority.policy_enforced", "session", session.sessionId, now), session, now);
  }

  lemma RehomeKeepsAttempts(cfg: Config, w: World, session: SessionSnapshot, route: RoutePlan, cleared: bool, inputs: Inputs)
    ensures Rehome(cfg, w, session, route, cleared, inputs).0.attempts == w.attempts
  {
    hide Migrate, FailAndClose, PushEvent, PutSuppression;
    var id, now := session.sessionId, inputs.now;
    var marked := UpdateSessionState(Emit(w, "path.migration_started", "session", id, now), id, Migrating, None,
                                     Some(BETTER_PATH), now);
    S.MigrateTouches(cfg, marked, id, route, inputs);
    var (moved, outcome) := Migrate(cfg, marked, id, route, inputs);
    if outcome.Err? {
      FailKeepsAttempts(moved, session, LocalRuntimeFailure,
                        "authority reevaluation migration failed: " + ErrorText(outcome.error), now);
    }
  }

  lemma ReevaluateKeepsAttempts(cfg: Config, d: D.DaemonState, runtimePeer: PeerId, w: World, session: SessionSnapshot,
                                inputs: Inputs)
    ensures ReevaluateOne(cfg, d, runtimePeer, w, session, inputs).0.attempts == w.attempts
  {
    hide EnforceOn, Rehome, PushEvent, Enforcement, D.PlanRoute, SessionMatchesRoute, FindSuppression, DropSuppression;
    if session.protocol.Some? {
      match Enforcement(d, runtimePeer, session.peer, session.protocol.value)
      case Some(enforced) => EnforceKeepsAttempts(w, session, enforced.0, enforced.1, inputs.now);
      case None =>
        var cleared := FindSuppression(w.suppressions, KeyOf(session)).Some?;
        var planned := D.PlanRoute(d, session.peer, session.protocol, session.class_);
        if planned.Ok? {
          RehomeKeepsAttempts(cfg, ClearSuppression(w, KeyOf(session), inputs.now), session, planned.value, cleared, inputs);
        }
    }
  }

  lemma {:induction false} ReconcileCycleKeepsAttempts(cfg: Config, d: D.DaemonState, w: World, order: seq<SessionSnapshot>,
                                                       inputs: InputStream, i: nat, entries: seq<ReconcileEntry>)
    ensures ReconcileFrom(cfg, d, w, order, inputs, i, entries).0.attempts == w.attempts
    decreases |order| - i
  {
    hide ReconcileOne;
    if i < |order| {
      ReconcileKeepsAttempts(cfg, d, w, order[i], inputs(i));
      var (next, outcome) := ReconcileOne(cfg, d, w, order[i], inputs(i));
      if outcome.Ok? {
        ReconcileCycleKeepsAttempts(cfg, d, next, order, inputs, i + 1, entries + [outcome.value]);
      }
    }
  }

  lemma {:induction false} ReevaluateCycleKeepsAttempts(cfg: Config, d: D.DaemonState, runtimePeer: PeerId, w: World,
                                                        order: seq<SessionSnapshot>, inputs: InputStream, i: nat,
                                                        tally: SessionTally)
    ensures ReevaluateFrom(cfg, d, runtimePeer, w, order, inputs, i, tally).0.attempts == w.attempts
    decreases |order| - i
  {
    hide ReevaluateOne;
    if i < |order| {
      ReevaluateKeepsAttempts(cfg, d, runtimePeer, w, order[i], inputs(i));
      var (next, outcome) := ReevaluateOne(cfg, d, runtimePeer, w, order[i], inputs(i));
      if outcome.Ok? {
        ReevaluateCycleKeepsAttempts(cfg, d, runtimePeer, next, order, inputs, i + 1, AddTo(tally, outcome.value));
      }
    }
  }

  /** Apart from scheduling and clearing, no operation or cycle of the control plane touches the attempts. */
  lemma OthersKeepAttempts(cfg: Config, w: World, step: ControlStep, key: SessionKey)
    requires LeavesScheduling(OtherStep(step), key) && !Clears(cfg, w, OtherStep(step), key)
    ensures FindAttempt(Advance(cfg, w, step).attempts, key) == FindAttempt(w.attempts, key)
  {
    hide ReconcileOne, ReevaluateOne;
    hide Connect, Migrate, CloseRuntimeSession, FindAttempt, PutAttempt, DropAttempt, PushEvent, ReconcileFrom,
         ReevaluateFrom, OpenAt, CloseAt, FindSuppression, DropSuppression, PutSuppression, NextAttempt, ClearedEvent,
         GateOf;
    match step
    case ReconcileCycleStep(d, order, inputs) => ReconcileCycleKeepsAttempts(cfg, d, w, order, inputs, 0, []);
    case ReevaluateCycleStep(d, runtimePeer, order, inputs, now) =>
      ReevaluateCycleKeepsAttempts(cfg, d, runtimePeer, Emit(w, "authority.reevaluation_started", "authority", runtimePeer, now),
                                   order, inputs, 0, NO_TALLY);
    case ReconcileTurnStep(d, listed, turn) => ReconcileKeepsAttempts(cfg, d, w, listed, turn);
    case ReevaluateTurnStep(d, runtimePeer, listed, turn) => ReevaluateKeepsAttempts(cfg, d, runtimePeer, w, listed, turn);
    case Operation(op) =>
      match op {
        case ConnectStep(route, inputs) => S.ConnectTouches(cfg, w, route, inputs);
        case MigrateStep(id, route, inputs) => S.MigrateTouches(cfg, w, id, route, inputs);
        case CloseStep(session, now) => S.CloseTouches(w, session, now);
        case ScheduleStep(other, reason, maxAttempts, base, maxBackoff, now) =>
          var attempt := NextAttempt(FindAttempt(w.attempts, other), other, reason, maxAttempts, base, maxBackoff, now);
          NextAttemptKey(FindAttempt(w.attempts, other), other, reason, maxAttempts, base, maxBackoff, now);
          PutAttemptFinds(w.attempts, attempt, key);
        case ClearAttemptStep(other, _, _) => DropAttemptFinds(w.attempts, other, key);
        case _ =>
      }
  }

  lemma NextAttemptKey(previous: Option<ReconnectAttempt>, key: SessionKey, reason: string, maxAttempts: nat, base: nat,
                       maxBackoff: nat, now: nat)
    ensures NextAttempt(previous, key, reason, maxAttempts, base, maxBackoff, now).key == key
  {
  }

  // ---------------------------------------------------------------- what the record says

  /** The failures on record for the key. */
  function Failures(w: World, key: SessionKey): nat {
    match FindAttempt(w.attempts, key) case None => 0 case Some(attempt) => attempt.attemptCount
  }

  /** The record has given up exactly at the maximum, and before that says how long to wait. */
  predicate SoundRecord(w: World, key: SessionKey) {
    match FindAttempt(w.attempts, key)
    case None => true
    case Some(attempt) =>
      && attempt.key == key
      && 1 <= attempt.attemptCount <= RECONNECT_MAX_ATTEMPTS
      && (attempt.state == AttemptFailed <==> attempt.attemptCount == RECONNECT_MAX_ATTEMPTS)
      && attempt.nextAttempt == SaturatingAdd(attempt.lastAttempt, DriverBackoff(attempt.attemptCount))
  }

  /** Apart from its record nothing keeps the cycle from dialing for this key. */
  predicate Unhindered(w: World, c: Cycle, key: SessionKey) {
    && TargetPeer(c.known, c.goal) == Some(key.peer)
    && key.protocol == Some(c.goal.protocol) && key.class_ == c.goal.class_
    && FindTarget(c.listed, w.sessions.Keys, key).None?
    && IsProtocolId(c.goal.protocol)
    && FindSuppression(w.suppressions, key).None?
  }

  /** A cycle dials exactly when nothing else hinders it, the failures are below the maximum and the wait is over. */
  lemma DialsExactly(w: World, c: Cycle, key: SessionKey)
    requires SoundRecord(w, key)
    ensures GateOf(w, c) == Dial(key) <==>
            && Unhindered(w, c, key)
            && Failures(w, key) < RECONNECT_MAX_ATTEMPTS
            && (FindAttempt(w.attempts, key).Some? ==>
                  c.inputs.now >= SaturatingAdd(FindAttempt(w.attempts, key).value.lastAttempt,
                                                DriverBackoff(Failures(w, key))))
  {
    hide FindAttempt, FindTarget, FindSuppression, Backoff, SaturatingAdd, IsProtocolId;
  }

  /** A protocol id starts with a slash and has another one. */
  lemma ProtocolIdExactly(text: string)
    ensures IsProtocolId(text) <==> exists name, rest :: text == ("/" + name) + ("/" + rest)
  {
    hide IsProtocolId;
    if IsProtocolId(text) {
      var name, rest := ProtocolParts(text);
    }
    if name, rest :| text == ("/" + name) + ("/" + rest) {
      PartsMakeProtocol(name, rest);
    }
  }

  lemma ProtocolParts(text: string) returns (name: string, rest: string)
    requires IsProtocolId(text)
    ensures text == ("/" + name) + ("/" + rest)
  {
    assert text[..1][0] == '/';
    Texts.CountsOccurrences(text[1..], '/');
    assert '/' in text[1..];
    var i :| 1 <= i < |text| && text[i] == '/';
    name, rest := text[1..i], text[i + 1..];
  }

  lemma PartsMakeProtocol(name: string, rest: string)
    ensures IsProtocolId(("/" + name) + ("/" + rest))
  {
    var tail := name + ("/" + rest);
    assert ("/" + name) + ("/" + rest) == "/" + tail;
    Texts.CountsOccurrences(tail, '/');
    assert tail[|name|] == '/';
    assert ("/" + tail)[1..] == tail;
  }

  /** The target on fields: the peer of the goal when it names one, else the first known peer; protocol and class from the goal. */
  predicate Targeted(c: Cycle, key: SessionKey) {
    && key.protocol == Some(c.goal.protocol) && key.class_ == c.goal.class_
    && (c.goal.peer.Some? ==> key.peer == c.goal.peer.value)
    && (c.goal.peer.None? ==> c.known.peers != [] && key.peer == c.known.peers[0].peer)
  }

  /** A cycle has no target exactly when the goal names no peer and none is known. */
  lemma NoTargetExactly(w: World, c: Cycle)
    ensures GateOf(w, c) == NoTarget <==> c.goal.peer == None && c.known.peers == []
  {
    hide FindTarget, IsProtocolId, FindSuppression, FindAttempt;
  }

  lemma {:induction false} ListedTarget(listed: seq<SessionSnapshot>, live: set<SessionId>, key: SessionKey)
    ensures FindTarget(listed, live, key).None? <==> forall s :: s in listed && s.sessionId in live ==> KeyOf(s) != key
    ensures FindTarget(listed, live, key).Some? ==>
              var found := FindTarget(listed, live, key).value;
              found in listed && found.sessionId in live && KeyOf(found) == key
  {
    if listed != [] {
      ListedTarget(listed[1..], live, key);
      assert listed == [listed[0]] + listed[1..];
    }
  }

  /** Whom a cycle dials, reuses or waits for is the target, whatever the gate. */
  lemma GateOnFields(w: World, c: Cycle, key: SessionKey)
    requires Targeted(c, key)
    ensures var gate := GateOf(w, c);
            && (gate.Reuse? <==> exists s :: s in c.listed && s.sessionId in w.sessions && s.peer == key.peer
                                             && s.protocol == key.protocol && s.class_ == key.class_)
            && (gate.Reuse? ==> gate.session in c.listed && KeyOf(gate.session) == key)
            && (gate.BadProtocol? ==> !exists name, rest :: c.goal.protocol == ("/" + name) + ("/" + rest))
            && (gate.HeldBack? ==>
                  gate.key == key && exists s :: s in w.suppressions && s.key == key && s.reason == gate.reason)
            && (gate.Dial? ==>
                  && gate.key == key && (forall s :: s in w.suppressions ==> s.key != key)
                  && exists name, rest :: c.goal.protocol == ("/" + name) + ("/" + rest))
  {
    ListedTarget(c.listed, w.sessions.Keys, key);
    ProtocolIdExactly(c.goal.protocol);
    F.SuppressionExactly(w.suppressions, key);
    assert TargetPeer(c.known, c.goal) == Some(key.peer);
    hide FindTarget, IsProtocolId, FindSuppression, FindAttempt;
  }

  /** A dial is for the goal's peer when there is one, and for the first known peer otherwise. */
  lemma DialIsTargeted(w: World, c: Cycle, key: SessionKey)
    requires GateOf(w, c) == Dial(key)
    ensures Targeted(c, key)
  {
    hide FindTarget, IsProtocolId, FindSuppression, FindAttempt;
  }

  /** What a cycle that may not dial yet reports: the failures on record and the seconds left. */
  lemma WaitingReport(cfg: Config, w: World, c: Cycle, attempt: ReconnectAttempt)
    requires GateOf(w, c) == Waiting(attempt) || GateOf(w, c) == GivenUp(attempt)
    ensures var (after, outcome) := EnsureTarget(cfg, w, c);
            && after == w && outcome.Ok?
            && (attempt.state == AttemptFailed <==> outcome.value == TargetFailed(attempt.attemptCount, attempt.reason))
            && (attempt.state != AttemptFailed ==>
                  exists left: nat :: && left + c.inputs.now == attempt.nextAttempt && left > 0
                                      && outcome.value == TargetBackingOff(attempt.attemptCount, left, attempt.reason))
  {
    hide FindTarget, IsProtocolId, FindSuppression, FindAttempt;
    assert attempt.state != AttemptFailed ==> c.inputs.now < attempt.nextAttempt;
    if attempt.state != AttemptFailed {
      var left := attempt.nextAttempt - c.inputs.now;
      assert EnsureTarget(cfg, w, c).1.value == TargetBackingOff(attempt.attemptCount, left, attempt.reason);
    }
  }

  /** What a cycle reports whose dial failed: the record that it leaves, with the seconds to the next dial from its start. */
  lemma FailedDialReport(cfg: Config, w: World, c: Cycle, key: SessionKey)
    requires GateOf(w, c) == Dial(key) && RealizeTarget(cfg, w, c, key).1.Err?
    ensures var (after, outcome) := EnsureTarget(cfg, w, c);
            && outcome.Ok? && FindAttempt(after.attempts, key).Some?
            && var attempt := FindAttempt(after.attempts, key).value;
            && (attempt.state == AttemptFailed ==> outcome.value == TargetFailed(attempt.attemptCount, attempt.reason))
            && (attempt.state != AttemptFailed ==>
                  && outcome.value.TargetBackingOff?
                  && outcome.value.attempts == attempt.attemptCount && outcome.value.reason == attempt.reason
                  && (attempt.nextAttempt <= c.inputs.now ==> outcome.value.retryIn == 0)
                  && (c.inputs.now <= attempt.nextAttempt ==> c.inputs.now + outcome.value.retryIn == attempt.nextAttempt))
  {
    var (dialed, outcome) := RealizeTarget(cfg, w, c, key);
    ScheduledIsFound(dialed, key, FailureText(outcome.error), c.failedAt);
    DialIsTheCycle(cfg, w, c, key);
    hide RealizeTarget, GateOf, FindAttempt, FailureText, Scheduled, EnsureTarget, ClearReconnectAttempt;
  }

  lemma DialIsTheCycle(cfg: Config, w: World, c: Cycle, key: SessionKey)
    requires GateOf(w, c) == Dial(key)
    ensures var (after, outcome) := DialTarget(cfg, w, c, key);
            EnsureTarget(cfg, w, c) == (after, Ok(outcome))
  {
    hide GateOf, DialTarget;
  }

  lemma ScheduledIsFound(w: World, key: SessionKey, reason: string, failedAt: nat)
    ensures var (after, attempt) := Scheduled(w, key, reason, failedAt);
            FindAttempt(after.attempts, key) == Some(attempt)
  {
    hide FindAttempt, PutAttempt, NextAttempt, PushEvent;
    var attempt := Scheduled(w, key, reason, failedAt).1;
    NextAttemptKey(FindAttempt(w.attempts, key), key, reason, RECONNECT_MAX_ATTEMPTS, RECONNECT_BASE_BACKOFF_SECS,
                   RECONNECT_MAX_BACKOFF_SECS, failedAt);
    PutAttemptFinds(w.attempts, attempt, key);
  }

  lemma RealizeKeepsAttempts(cfg: Config, w: World, c: Cycle, key: SessionKey)
    ensures RealizeTarget(cfg, w, c, key).0.attempts == w.attempts
  {
    hide Connect, D.ExplainPolicy, D.PlanRoute, D.Recached, PushEvent;
    var d := D.Recached(c.durable);
    var planned := D.PlanRoute(d, key.peer, Some(c.goal.protocol), key.class_);
    if planned.Ok? {
      S.ConnectTouches(cfg, Started(w, key, c.inputs.now), planned.value, c.inputs);
    }
  }

  /** A failed dial adds one to the record and sets the next wait. */
  lemma FailureRecorded(cfg: Config, w: World, c: Cycle, key: SessionKey)
    requires SoundRecord(w, key) && GateOf(w, c) == Dial(key) && RealizeTarget(cfg, w, c, key).1.Err?
    ensures var after := EnsureTarget(cfg, w, c).0;
            && SoundRecord(after, key) && Failures(after, key) == Failures(w, key) + 1
            && FindAttempt(after.attempts, key).value.lastAttempt == c.failedAt
  {
    DialsExactly(w, c, key);
    RealizeKeepsAttempts(cfg, w, c, key);
    var (dialed, outcome) := RealizeTarget(cfg, w, c, key);
    var reason := FailureText(outcome.error);
    ScheduledRecord(dialed, key, reason, c.failedAt);
    hide RealizeTarget, GateOf, FindAttempt, Scheduled, FailureText, DriverBackoff, SaturatingAdd;
    assert EnsureTarget(cfg, w, c).0 == Scheduled(dialed, key, reason, c.failedAt).0;
  }

  lemma ScheduledRecord(w: World, key: SessionKey, reason: string, failedAt: nat)
    requires SoundRecord(w, key) && Failures(w, key) < RECONNECT_MAX_ATTEMPTS
    ensures var after := Scheduled(w, key, reason, failedAt).0;
            && SoundRecord(after, key) && Failures(after, key) == Failures(w, key) + 1
            && FindAttempt(after.attempts, key).value.lastAttempt == failedAt
  {
    var attempt := NextAttempt(FindAttempt(w.attempts, key), key, reason, RECONNECT_MAX_ATTEMPTS,
                               RECONNECT_BASE_BACKOFF_SECS, RECONNECT_MAX_BACKOFF_SECS, failedAt);
    PutAttemptFinds(w.attempts, attempt, key);
    DriverWaits();
    hide FindAttempt, PutAttempt, PushEvent;
  }

  /** What a cycle does to a record other than by dialing for it. */
  lemma QuietCycle(cfg: Config, w: World, c: Cycle, key: SessionKey)
    requires GateOf(w, c) != Dial(key) && !Clears(cfg, w, CycleStep(c), key)
    ensures FindAttempt(EnsureTarget(cfg, w, c).0.attempts, key) == FindAttempt(w.attempts, key)
  {
    hide GateOf, FindAttempt, DropAttempt, PutAttempt, PushEvent, RealizeTarget, NextAttempt, FailureText, ClearedEvent,
         AttemptOutcome;
    match GateOf(w, c)
    case Reuse(session) => DropAttemptFinds(w.attempts, KeyOf(session), key);
    case HeldBack(held, _) => DropAttemptFinds(w.attempts, held, key);
    case Dial(other) =>
      RealizeKeepsAttempts(cfg, w, c, other);
      var (dialed, outcome) := RealizeTarget(cfg, w, c, other);
      DropAttemptFinds(dialed.attempts, other, key);
      if outcome.Err? {
        var reason := FailureText(outcome.error);
        var previous := FindAttempt(dialed.attempts, other);
        NextAttemptKey(previous, other, reason, RECONNECT_MAX_ATTEMPTS, RECONNECT_BASE_BACKOFF_SECS,
                       RECONNECT_MAX_BACKOFF_SECS, c.failedAt);
        PutAttemptFinds(dialed.attempts, NextAttempt(previous, other, reason, RECONNECT_MAX_ATTEMPTS,
                        RECONNECT_BASE_BACKOFF_SECS, RECONNECT_MAX_BACKOFF_SECS, c.failedAt), key);
      }
    case _ =>
  }

  /** A step that clears the record leaves none. */
  lemma ClearedRecord(cfg: Config, w: World, s: DriverStep, key: SessionKey)
    requires Clears(cfg, w, s, key)
    ensures FindAttempt(Turn(cfg, w, s).attempts, key) == None
  {
    hide FindAttempt, DropAttempt, PushEvent, RealizeTarget, FindTarget, FindSuppression, ClearedEvent;
    DropAttemptFinds(w.attempts, key, key);
    if s.CycleStep? && GateOf(w, s.c).Dial? {
      DropAttemptFinds(RealizeTarget(cfg, w, s.c, key).0.attempts, key, key);
    }
  }

  lemma TurnRecord(cfg: Config, w: World, s: DriverStep, key: SessionKey)
    requires SoundRecord(w, key) && LeavesScheduling(s, key) && !Clears(cfg, w, s, key)
    ensures SoundRecord(Turn(cfg, w, s), key)
    ensures Failures(Turn(cfg, w, s), key) == Failures(w, key) + One(Dials(w, s, key))
    ensures !Dials(w, s, key) ==> FindAttempt(Turn(cfg, w, s).attempts, key) == FindAttempt(w.attempts, key)
  {
    hide EnsureTarget, Advance, FindAttempt, GateOf, RealizeTarget, DriverBackoff, SaturatingAdd;
    match s
    case OtherStep(step) => OthersKeepAttempts(cfg, w, step, key);
    case CycleStep(c) =>
      if Dials(w, s, key) {
        FailureRecorded(cfg, w, c, key);
      } else {
        QuietCycle(cfg, w, c, key);
      }
  }

  // ---------------------------------------------------------------- over whole runs

  /** In every reachable state the record has given up exactly when it holds the maximum of failures. */
  lemma {:induction false} RecordsStaySound(cfg: Config, w: World, steps: seq<DriverStep>, key: SessionKey)
    requires SoundRecord(w, key) && AllLeaveScheduling(steps, key)
    ensures SoundRecord(Turns(cfg, w, steps), key)
    decreases |steps|
  {
    hide SoundRecord, Turn, Clears, LeavesScheduling;
    if steps != [] {
      assert LeavesScheduling(steps[0], key);
      if Clears(cfg, w, steps[0], key) {
        ClearedRecord(cfg, w, steps[0], key);
        NoRecordIsSound(Turn(cfg, w, steps[0]), key);
      } else {
        TurnRecord(cfg, w, steps[0], key);
      }
      RecordsStaySound(cfg, Turn(cfg, w, steps[0]), steps[1..], key);
    }
  }

  lemma NoRecordIsSound(w: World, key: SessionKey)
    requires FindAttempt(w.attempts, key) == None
    ensures SoundRecord(w, key) && Failures(w, key) == 0
  {
  }

  /** While nothing clears the record, its count is the number of dials. */
  lemma {:induction false} DialsAreFailures(cfg: Config, w: World, steps: seq<DriverStep>, key: SessionKey)
    requires SoundRecord(w, key) && AllLeaveScheduling(steps, key) && ClearFree(cfg, w, steps, key)
    ensures var after := Turns(cfg, w, steps);
            && SoundRecord(after, key)
            && Failures(after, key) == Failures(w, key) + DialCount(cfg, w, steps, key)
    ensures DialCount(cfg, w, steps, key) == 0 ==>
      FindAttempt(Turns(cfg, w, steps).attempts, key) == FindAttempt(w.attempts, key)
    decreases |steps|
  {
    hide SoundRecord, Turn, Clears, LeavesScheduling, Dials, FindAttempt, Failures;
    if steps != [] {
      assert LeavesScheduling(steps[0], key);
      TurnRecord(cfg, w, steps[0], key);
      DialsAreFailures(cfg, Turn(cfg, w, steps[0]), steps[1..], key);
    }
  }

  lemma FailuresBounded(w: World, key: SessionKey)
    requires SoundRecord(w, key)
    ensures Failures(w, key) <= RECONNECT_MAX_ATTEMPTS
  {
  }

  /**
   Between two clears of the record, the step that makes the second clear included, the driver dials at
   most the maximum, less the failures that were already on record.
   */
  lemma DialBound(cfg: Config, w: World, steps: seq<DriverStep>, last: DriverStep, key: SessionKey)
    requires SoundRecord(w, key) && AllLeaveScheduling(steps + [last], key) && ClearFree(cfg, w, steps, key)
    ensures DialCount(cfg, w, steps, key) + One(Dials(Turns(cfg, w, steps), last, key))
         <= RECONNECT_MAX_ATTEMPTS - Failures(w, key)
  {
    forall i | 0 <= i < |steps| ensures LeavesScheduling(steps[i], key) {
      assert (steps + [last])[i] == steps[i];
    }
    DialsAreFailures(cfg, w, steps, key);
    var before := Turns(cfg, w, steps);
    FailuresBounded(before, key);
    if Dials(before, last, key) {
      DialsExactly(before, last.c, key);
    }
  }

  /**
   After a failed dial, the next dial for the key comes no sooner than the backoff of the failures so far,
   whatever happens in between, unless the record was cleared.
   */
  lemma NextDialWaits(cfg: Config, w: World, c: Cycle, between: seq<DriverStep>, next: Cycle, key: SessionKey)
    requires SoundRecord(w, key) && GateOf(w, c) == Dial(key) && RealizeTarget(cfg, w, c, key).1.Err?
    requires var failed := Turn(cfg, w, CycleStep(c));
             && AllLeaveScheduling(between, key) && ClearFree(cfg, failed, between, key)
             && DialCount(cfg, failed, between, key) == 0
             && GateOf(Turns(cfg, failed, between), next) == Dial(key)
    ensures var k := Failures(w, key) + 1;
            next.inputs.now >= SaturatingAdd(c.failedAt, DriverBackoff(k))
  {
    hide GateOf, RealizeTarget, EnsureTarget, FindAttempt, DriverBackoff, SaturatingAdd;
    FailureRecorded(cfg, w, c, key);
    var failed := Turn(cfg, w, CycleStep(c));
    DialsAreFailures(cfg, failed, between, key);
    DialsExactly(Turns(cfg, failed, between), next, key);
  }

  // ---------------------------------------------------------------- cycles are runs of the adapter

  function CycleTrace(cfg: Config, w: World, c: Cycle): seq<AdapterStep> {
    var now := c.inputs.now;
    match GateOf(w, c)
    case Reuse(session) => [ClearAttemptStep(KeyOf(session), "session already active", now)]
    case HeldBack(key, _) => [ClearAttemptStep(key, "reconnect suppressed by policy", now)]
    case Dial(key) => [RecordEventStep("reconnect.started", "peer", key.peer, now)] + DialTrace(cfg, w, c, key)
    case _ => []
  }

  function DialTrace(cfg: Config, w: World, c: Cycle, key: SessionKey): seq<AdapterStep> {
    var d := D.Recached(c.durable);
    var planned := D.PlanRoute(d, key.peer, Some(c.goal.protocol), key.class_);
    (if D.ExplainPolicy(d, key.peer, c.goal.protocol).allowed && planned.Ok?
     then [ConnectStep(planned.value, c.inputs)] else [])
    + [RecordOf(RealizeTarget(cfg, w, c, key).1, c, key)]
  }

  function RecordOf(outcome: Result<SessionSnapshot, D.DaemonError>, c: Cycle, key: SessionKey): AdapterStep {
    match outcome
    case Ok(_) => ClearAttemptStep(key, "reconnect succeeded", c.inputs.now)
    case Err(error) => ScheduleStep(key, FailureText(error), RECONNECT_MAX_ATTEMPTS, RECONNECT_BASE_BACKOFF_SECS,
                                    RECONNECT_MAX_BACKOFF_SECS, c.failedAt)
  }

  /** A driver cycle is a run of adapter operations, so what holds over those runs holds with the driver in them. */
  lemma CycleIsRun(cfg: Config, w: World, c: Cycle)
    ensures EnsureTarget(cfg, w, c).0 == Run(cfg, w, CycleTrace(cfg, w, c))
    ensures AllOwn(CycleTrace(cfg, w, c))
  {
    hide Connect, RouteShaped, D.ExplainPolicy, D.PlanRoute, D.Recached, PushEvent, ClearReconnectAttempt, ScheduleReconnect,
         FindTarget, FindSuppression, FindAttempt, IsProtocolId, FailureText;
    match GateOf(w, c)
    case Reuse(session) => RunOne(cfg, w, CycleTrace(cfg, w, c)[0]);
    case HeldBack(key, _) => RunOne(cfg, w, CycleTrace(cfg, w, c)[0]);
    case Dial(key) =>
      var d := D.Recached(c.durable);
      var planned := D.PlanRoute(d, key.peer, Some(c.goal.protocol), key.class_);
      var start := RecordEventStep("reconnect.started", "peer", key.peer, c.inputs.now);
      var started := Step(cfg, w, start);
      var record := RecordOf(RealizeTarget(cfg, w, c, key).1, c, key);
      RunOne(cfg, w, start);
      RunAppend(cfg, w, [start], DialTrace(cfg, w, c, key));
      if D.ExplainPolicy(d, key.peer, c.goal.protocol).allowed && planned.Ok? {
        var dial := ConnectStep(planned.value, c.inputs);
        PlannedRoute(d, key.peer, Some(c.goal.protocol), key.class_);
        RunOne(cfg, started, dial);
        RunAppend(cfg, started, [dial], [record]);
        RunOne(cfg, Step(cfg, started, dial), record);
      } else {
        assert DialTrace(cfg, w, c, key) == [record];
        RunOne(cfg, started, record);
      }
    case _ => RunNothing(cfg, w);
  }

  /** An active outcome means that policy allows the session and it is live under the target's key. */
  lemma ActiveMeansLive(cfg: Config, w: World, c: Cycle)
    requires EnsureTarget(cfg, w, c).1.Ok? && EnsureTarget(cfg, w, c).1.value.TargetActive?
    ensures var (after, outcome) := EnsureTarget(cfg, w, c);
            var session := outcome.value.session;
            && GateOf(w, c) == Dial(KeyOf(session))
            && session.sessionId in after.sessions && after.sessions[session.sessionId] == session
            && FindAttempt(after.attempts, KeyOf(session)) == None
            && session.protocol.Some? && D.ExplainPolicy(D.Recached(c.durable), session.peer, session.protocol.value).allowed
  {
    hide Connect, D.ExplainPolicy, D.PlanRoute, D.Recached, PushEvent, FindTarget, FindSuppression, FindAttempt, DropAttempt,
         IsProtocolId, FailureText, NextAttempt, PutAttempt;
    var key := GateOf(w, c).key;
    var (dialed, outcome) := RealizeTarget(cfg, w, c, key);
    var d := D.Recached(c.durable);
    var route := D.PlanRoute(d, key.peer, Some(c.goal.protocol), key.class_).value;
    PlannedRoute(d, key.peer, Some(c.goal.protocol), key.class_);
    ConnectedIsLive(cfg, Started(w, key, c.inputs.now), route, c.inputs);
    DropAttemptFinds(dialed.attempts, key, key);
  }

  lemma ConnectedIsLive(cfg: Config, w: World, route: RoutePlan, inputs: Inputs)
    requires Connect(cfg, w, route, inputs).1.Ok?
    ensures var (after, outcome) := Connect(cfg, w, route, inputs);
            var session := outcome.value;
            && session.sessionId in after.sessions && after.sessions[session.sessionId] == session
            && KeyOf(session) == RouteKey(route)
  {
    hide OpenAt, CloseAt, PushEvent, FindSuppression, LogicalSessionId;
  }

  // ---------------------------------------------------------------- suppressed keys stay down

  lemma SameSessionsKeepDown(w: World, after: World, key: SessionKey)
    requires S.HeldDown(w, key) && after.sessions == w.sessions && after.suppressions == w.suppressions
    ensures S.HeldDown(after, key)
  {
    hide FindSuppression;
  }

  lemma RealizeKeepsDown(cfg: Config, w: World, c: Cycle, dialed: SessionKey, key: SessionKey)
    requires S.HeldDown(w, key)
    ensures S.HeldDown(RealizeTarget(cfg, w, c, dialed).0, key)
  {
    hide S.HeldDown, Connect, D.ExplainPolicy, D.PlanRoute, D.Recached, PushEvent;
    var started := Started(w, dialed, c.inputs.now);
    SameSessionsKeepDown(w, started, key);
    var planned := D.PlanRoute(D.Recached(c.durable), dialed.peer, Some(c.goal.protocol), dialed.class_);
    if planned.Ok? {
      S.ConnectKeepsDown(cfg, started, planned.value, c.inputs, key);
    }
  }

  lemma CycleKeepsDown(cfg: Config, w: World, c: Cycle, key: SessionKey)
    requires S.HeldDown(w, key)
    ensures S.HeldDown(EnsureTarget(cfg, w, c).0, key)
  {
    hide S.HeldDown, GateOf, RealizeTarget, FindAttempt, DropAttempt, PutAttempt, NextAttempt, PushEvent, ClearedEvent,
         FailureText, AttemptOutcome;
    match GateOf(w, c)
    case Dial(dialed) =>
      RealizeKeepsDown(cfg, w, c, dialed, key);
      SameSessionsKeepDown(RealizeTarget(cfg, w, c, dialed).0, EnsureTarget(cfg, w, c).0, key);
    case _ => SameSessionsKeepDown(w, EnsureTarget(cfg, w, c).0, key);
  }

  /** Every step leaves the suppression alone: driver cycles always do. */
  ghost predicate TurnsLeaveDown(cfg: Config, w: World, steps: seq<DriverStep>, key: SessionKey)
    decreases |steps|
  {
    steps != [] ==>
      && (steps[0].OtherStep? ==> LeavesDown(w, steps[0].step, key))
      && TurnsLeaveDown(cfg, Turn(cfg, w, steps[0]), steps[1..], key)
  }

  /** With the driver in the run, too, a suppressed key stays down until somebody clears it. */
  lemma {:induction false} TargetStaysDown(cfg: Config, w: World, steps: seq<DriverStep>, key: SessionKey)
    requires S.HeldDown(w, key) && TurnsLeaveDown(cfg, w, steps, key)
    ensures S.HeldDown(Turns(cfg, w, steps), key)
    decreases |steps|
  {
    hide S.HeldDown, LeavesDown, EnsureTarget, Advance;
    if steps != [] {
      match steps[0] {
        case CycleStep(c) => CycleKeepsDown(cfg, w, c, key);
        case OtherStep(step) => AdvanceKeepsDown(cfg, w, step, key);
      }
      TargetStaysDown(cfg, Turn(cfg, w, steps[0]), steps[1..], key);
    }
  }
}
