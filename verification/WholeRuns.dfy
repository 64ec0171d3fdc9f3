/**
 Runs of everything together: driver cycles, reconcile cycles, reevaluations, single turns of them and single
 operations, in any order and under any durable states. Relay conservation and the rule of one session per key hold over them.
 */
module WholeRuns {
  import opened Model
  import opened Transport
  import opened RelayLeases
  import opened AdapterRuns
  import opened SessionKeys
  import opened ControlPlane
  import opened ControlRuns
  import opened Driver
  import opened DriverRuns
  import D = DurableState

  // ---------------------------------------------------------------- relay conservation

  /** The adapter operations that a turn performs. */
  function TurnTrace(cfg: Config, w: World, s: DriverStep): seq<AdapterStep> {
    match s
    case CycleStep(c) => CycleTrace(cfg, w, c)
    case OtherStep(step) => TraceOf(cfg, w, step)
  }

  /** What is asked of a turn: operations are admissible, cycles list the live sessions, attempt ids are fresh. */
  ghost predicate OrderlyTurn(cfg: Config, w: World, local: PeerId, s: DriverStep) {
    match s
    case CycleStep(c) => AttemptsFresh(cfg, w, CycleTrace(cfg, w, c))
    case OtherStep(step) => Orderly(cfg, w, local, step)
  }

  ghost predicate OrderlyTurns(cfg: Config, w: World, local: PeerId, steps: seq<DriverStep>)
    decreases |steps|
  {
    steps != [] ==> OrderlyTurn(cfg, w, local, steps[0]) && OrderlyTurns(cfg, Turn(cfg, w, steps[0]), local, steps[1..])
  }

  /** The relay sessions that the turns leave open without a holder. */
  ghost function TurnsLeak(cfg: Config, w: World, steps: seq<DriverStep>): set<Lease>
    decreases |steps|
  {
    if steps == [] then {}
    else RunLeak(cfg, w, TurnTrace(cfg, w, steps[0])) + TurnsLeak(cfg, Turn(cfg, w, steps[0]), steps[1..])
  }

  lemma TurnConserves(cfg: Config, w: World, local: PeerId, s: DriverStep)
    requires cfg.localIdentity == Some(local) && Sound(w, local) && OrderlyTurn(cfg, w, local, s)
    ensures var after := Turn(cfg, w, s);
            Sound(after, local) && Leaked(after, local) == Leaked(w, local) + RunLeak(cfg, w, TurnTrace(cfg, w, s))
  {
    hide Advance, EnsureTarget, CycleTrace, TraceOf, Run, RunLeak, Sound, Leaked, AllOwn, AttemptsFresh, AdmissibleRun, Orderly;
    match s
    case OtherStep(step) => AdvanceConserves(cfg, w, local, step);
    case CycleStep(c) =>
      CycleIsRun(cfg, w, c);
      OwnIsAdmissible(cfg, w, local, CycleTrace(cfg, w, c));
      RunConserves(cfg, w, local, CycleTrace(cfg, w, c));
  }

  /**
   Over any orderly run of everything together no live record holds a relay session that is not open or that
   another holds, and the open ones without a holder are exactly those left by blocked closes.
   */
  lemma {:induction false} WholeConserves(cfg: Config, w: World, local: PeerId, steps: seq<DriverStep>)
    requires cfg.localIdentity == Some(local) && Sound(w, local) && OrderlyTurns(cfg, w, local, steps)
    ensures var after := Turns(cfg, w, steps);
            Sound(after, local) && Leaked(after, local) == Leaked(w, local) + TurnsLeak(cfg, w, steps)
    decreases |steps|
  {
    hide Turn, TurnTrace, Sound, Leaked, OrderlyTurn, RunLeak;
    if steps != [] {
      TurnConserves(cfg, w, local, steps[0]);
      WholeConserves(cfg, Turn(cfg, w, steps[0]), local, steps[1..]);
    }
  }

  // ---------------------------------------------------------------- with the relays reachable

  /** No operation of the run takes a relay away. */
  predicate StaysReachable(steps: seq<DriverStep>) {
    forall i :: 0 <= i < |steps| ==> KeepsReach(steps[i])
  }

  predicate KeepsReach(s: DriverStep) {
    match s
    case OtherStep(Operation(ReachStep(down))) => down == {}
    case _ => true
  }

  lemma OwnIsReachable(trace: seq<AdapterStep>)
    requires AllOwn(trace)
    ensures AlwaysReachable(trace)
  {
    hide RouteShaped;
    forall i | 0 <= i < |trace| ensures !trace[i].ReachStep? {
      assert OwnOperation(trace[i]);
    }
  }

  lemma {:induction false} RunStaysUp(cfg: Config, w: World, trace: seq<AdapterStep>)
    requires w.down == {} && AlwaysReachable(trace)
    ensures Run(cfg, w, trace).down == {}
    decreases |trace|
  {
    hide Step, StepLeak;
    if trace != [] {
      ReachableStep(cfg, w, trace[0]);
      RunStaysUp(cfg, Step(cfg, w, trace[0]), trace[1..]);
    }
  }

  lemma TurnTraceIsRun(cfg: Config, w: World, s: DriverStep)
    requires s.OtherStep? ==> AtOwnIds(w) && WellListed(w, s.step)
    ensures Turn(cfg, w, s) == Run(cfg, w, TurnTrace(cfg, w, s))
    ensures KeepsReach(s) ==> AlwaysReachable(TurnTrace(cfg, w, s))
  {
    hide Advance, EnsureTarget, CycleTrace, TraceOf, Run, AllOwn, AlwaysReachable, WellListed, AtOwnIds;
    match s
    case CycleStep(c) =>
      CycleIsRun(cfg, w, c);
      OwnIsReachable(CycleTrace(cfg, w, c));
    case OtherStep(step) =>
      AdvanceIsRun(cfg, w, step);
      if step.Operation? {
        OneReachable(cfg, w, step);
      } else {
        OwnIsReachable(TraceOf(cfg, w, step));
      }
  }

  lemma OneReachable(cfg: Config, w: World, step: ControlStep)
    requires step.Operation?
    ensures KeepsReach(OtherStep(step)) ==> AlwaysReachable(TraceOf(cfg, w, step))
  {
  }

  lemma {:induction false} ReachableTurnsLeakNothing(cfg: Config, w: World, local: PeerId, steps: seq<DriverStep>)
    requires cfg.localIdentity == Some(local) && Sound(w, local) && OrderlyTurns(cfg, w, local, steps)
    requires w.down == {} && StaysReachable(steps)
    ensures TurnsLeak(cfg, w, steps) == {}
    decreases |steps|
  {
    if steps != [] {
      assert KeepsReach(steps[0]);
      OrderlyIsListed(cfg, w, local, steps[0]);
      hide Turn, TurnTrace, Sound, OrderlyTurn, Run, RunLeak, KeepsReach, AlwaysReachable;
      var trace := TurnTrace(cfg, w, steps[0]);
      TurnTraceIsRun(cfg, w, steps[0]);
      ReachableRunLeaksNothing(cfg, w, trace);
      RunStaysUp(cfg, w, trace);
      TurnConserves(cfg, w, local, steps[0]);
      ReachableTurnsLeakNothing(cfg, Turn(cfg, w, steps[0]), local, steps[1..]);
    }
  }

  lemma OrderlyIsListed(cfg: Config, w: World, local: PeerId, s: DriverStep)
    requires Sound(w, local) && OrderlyTurn(cfg, w, local, s)
    ensures s.OtherStep? ==> AtOwnIds(w) && WellListed(w, s.step)
  {
    SoundAtOwnIds(w, local);
    hide Sound, AttemptsFresh, Admissible, TraceOf, CycleTrace, WellListed, AtOwnIds;
  }

  /**
   With the relays reachable, from an empty registry and over every orderly run of everything together, the
   relay sessions open for this adapter are one to one the relay records that it holds.
   */
  lemma WholeRelaysConserved(cfg: Config, w: World, local: PeerId, steps: seq<DriverStep>)
    requires cfg.localIdentity == Some(local) && OrderlyTurns(cfg, w, local, steps)
    requires w.sessions == map[] && OpenFor(w, local) == {}
    requires w.down == {} && StaysReachable(steps)
    ensures var after := Turns(cfg, w, steps);
            && OpenFor(after, local) == Held(after)
            && (forall a, b :: a in after.sessions && b in after.sessions && a != b ==>
                  LeaseOf(after.sessions[a]) !! LeaseOf(after.sessions[b]))
  {
    hide Turns, OrderlyTurns, TurnsLeak, OpenIn, LeaseOf, StaysReachable;
    assert Held(w) == {};
    WholeConserves(cfg, w, local, steps);
    ReachableTurnsLeakNothing(cfg, w, local, steps);
    assert Leaked(Turns(cfg, w, steps), local) == {};
    NoLeakMeansHeld(Turns(cfg, w, steps), local);
  }

  lemma NoLeakMeansHeld(w: World, local: PeerId)
    requires Sound(w, local) && Leaked(w, local) == {}
    ensures OpenFor(w, local) == Held(w)
    ensures forall a, b :: a in w.sessions && b in w.sessions && a != b ==> LeaseOf(w.sessions[a]) !! LeaseOf(w.sessions[b])
  {
    hide OpenIn, HeldIn, LeaseOf;
    var open_, held := OpenFor(w, local), Held(w);
    assert open_ - held == {} && held <= open_;
    forall lease | lease in open_ ensures lease in held {
      assert lease !in open_ - held;
    }
  }

  // ---------------------------------------------------------------- one session per key

  /** A turn that leaves other records alone and the key of its own keeps every session at the id of its key. */
  lemma ConfinedKeepsKeys(cfg: Config, local: PeerId, w: World, next: World, session: SessionSnapshot)
    requires KeysAtIds(cfg, local, w) && AtOwnIds(next)
    requires StillServes(w, session) && StillServes(next, session)
    requires Confined(w, next, session.sessionId, KeyOf(session))
    ensures KeysAtIds(cfg, local, next)
  {
    hide IdFor, FindSuppression;
    var id := session.sessionId;
    forall other | other in next.sessions
      ensures next.sessions[other].sessionId == other && other == IdFor(cfg, local, KeyOf(next.sessions[other]))
    {
      if other != id {
        assert other in next.sessions - {id} && other in w.sessions - {id};
        assert (next.sessions - {id})[other] == (w.sessions - {id})[other];
      }
    }
  }

  lemma KeysAreOwn(cfg: Config, local: PeerId, w: World)
    requires KeysAtIds(cfg, local, w)
    ensures AtOwnIds(w)
  {
    hide IdFor;
  }

  lemma ListedServes(w: World, order: seq<SessionSnapshot>, i: nat)
    requires AsListed(w, order, i) && i < |order|
    ensures StillServes(w, order[i])
  {
  }

  lemma {:induction false} ReconcileKeepsKeys(cfg: Config, local: PeerId, d: D.DaemonState, w: World,
                                              order: seq<SessionSnapshot>, inputs: InputStream, i: nat,
                                              entries: seq<ReconcileEntry>)
    requires KeysAtIds(cfg, local, w) && AsListed(w, order, i)
    ensures KeysAtIds(cfg, local, ReconcileFrom(cfg, d, w, order, inputs, i, entries).0)
    decreases |order| - i
  {
    hide ReconcileOne, Confined, KeysAtIds, AtOwnIds, AsListed, StillServes;
    if i < |order| {
      var (next, outcome) := ReconcileOne(cfg, d, w, order[i], inputs(i));
      KeysAreOwn(cfg, local, w);
      ListedServes(w, order, i);
      ReconcileConfined(cfg, d, w, order[i], inputs(i));
      ConfinedKeepsKeys(cfg, local, w, next, order[i]);
      AsListedNext(w, next, order, i);
      if outcome.Ok? {
        ReconcileKeepsKeys(cfg, local, d, next, order, inputs, i + 1, entries + [outcome.value]);
      }
    }
  }

  lemma {:induction false} ReevaluateKeepsKeys(cfg: Config, local: PeerId, d: D.DaemonState, runtimePeer: PeerId, w: World,
                                               order: seq<SessionSnapshot>, inputs: InputStream, i: nat,
                                               tally: SessionTally)
    requires KeysAtIds(cfg, local, w) && AsListed(w, order, i)
    ensures KeysAtIds(cfg, local, ReevaluateFrom(cfg, d, runtimePeer, w, order, inputs, i, tally).0)
    decreases |order| - i
  {
    hide ReevaluateOne, Confined, KeysAtIds, AtOwnIds, AsListed, StillServes, AddTo;
    if i < |order| {
      var (next, outcome) := ReevaluateOne(cfg, d, runtimePeer, w, order[i], inputs(i));
      KeysAreOwn(cfg, local, w);
      ListedServes(w, order, i);
      ReevaluateConfined(cfg, d, runtimePeer, w, order[i], inputs(i));
      ConfinedKeepsKeys(cfg, local, w, next, order[i]);
      AsListedNext(w, next, order, i);
      if outcome.Ok? {
        ReevaluateKeepsKeys(cfg, local, d, runtimePeer, next, order, inputs, i + 1, AddTo(tally, outcome.value));
      }
    }
  }

  lemma AdvanceKeepsKeys(cfg: Config, local: PeerId, w: World, step: ControlStep)
    requires cfg.localIdentity == Some(local) && KeysAtIds(cfg, local, w) && WellListed(w, step)
    requires step.Operation? ==> OwnKey(w, step.step)
    ensures KeysAtIds(cfg, local, Advance(cfg, w, step))
  {
    hide AdapterRuns.Step, Lists, AsListed, PushEvent, IdFor, ReconcileFrom, ReevaluateFrom, ReconcileOne, ReevaluateOne, Confined,
         StillServes;
    match step
    case Operation(op) => StepKeepsKeys(cfg, local, w, op);
    case ReconcileCycleStep(d, order, inputs) =>
      ListedAsListed(w, order);
      ReconcileKeepsKeys(cfg, local, d, w, order, inputs, 0, []);
    case ReevaluateCycleStep(d, runtimePeer, order, inputs, now) =>
      var started := Emit(w, "authority.reevaluation_started", "authority", runtimePeer, now);
      ListedAsListed(started, order);
      ReevaluateKeepsKeys(cfg, local, d, runtimePeer, started, order, inputs, 0, NO_TALLY);
    case ReconcileTurnStep(d, listed, turn) =>
      KeysAreOwn(cfg, local, w);
      ReconcileConfined(cfg, d, w, listed, turn);
      ConfinedKeepsKeys(cfg, local, w, ReconcileOne(cfg, d, w, listed, turn).0, listed);
    case ReevaluateTurnStep(d, runtimePeer, listed, turn) =>
      KeysAreOwn(cfg, local, w);
      ReevaluateConfined(cfg, d, runtimePeer, w, listed, turn);
      ConfinedKeepsKeys(cfg, local, w, ReevaluateOne(cfg, d, runtimePeer, w, listed, turn).0, listed);
  }

  predicate NoMigrations(trace: seq<AdapterStep>) {
    forall i :: 0 <= i < |trace| ==> !trace[i].MigrateStep?
  }

  lemma {:induction false} NoMigrationsOwnKeys(cfg: Config, w: World, trace: seq<AdapterStep>)
    requires NoMigrations(trace)
    ensures OwnKeyRun(cfg, w, trace)
    decreases |trace|
  {
    hide Step;
    if trace != [] {
      NoMigrationsOwnKeys(cfg, Step(cfg, w, trace[0]), trace[1..]);
    }
  }

  lemma CycleNeverMigrates(cfg: Config, w: World, c: Cycle)
    ensures NoMigrations(CycleTrace(cfg, w, c))
  {
    hide GateOf, RealizeTarget, D.PlanRoute, D.ExplainPolicy, D.Recached, FailureText;
  }

  lemma TurnKeepsKeys(cfg: Config, local: PeerId, w: World, s: DriverStep)
    requires cfg.localIdentity == Some(local) && KeysAtIds(cfg, local, w) && ListedTurn(w, s)
    ensures KeysAtIds(cfg, local, Turn(cfg, w, s))
  {
    hide KeysAtIds, Advance, EnsureTarget, CycleTrace, Run, OwnKeyRun, OwnKey, WellListed;
    match s
    case OtherStep(step) => AdvanceKeepsKeys(cfg, local, w, step);
    case CycleStep(c) =>
      CycleIsRun(cfg, w, c);
      CycleNeverMigrates(cfg, w, c);
      NoMigrationsOwnKeys(cfg, w, CycleTrace(cfg, w, c));
      OneSessionPerKey(cfg, local, w, CycleTrace(cfg, w, c));
  }

  /** Cycles list the live sessions, and single migrations stay on the session's own key. */
  ghost predicate ListedTurn(w: World, s: DriverStep) {
    s.OtherStep? ==> WellListed(w, s.step) && (s.step.Operation? ==> OwnKey(w, s.step.step))
  }

  ghost predicate ListedTurns(cfg: Config, w: World, steps: seq<DriverStep>)
    decreases |steps|
  {
    steps != [] ==> ListedTurn(w, steps[0]) && ListedTurns(cfg, Turn(cfg, w, steps[0]), steps[1..])
  }

  /** Over any run of everything together no two live sessions have the same key. */
  lemma {:induction false} WholeOneSessionPerKey(cfg: Config, local: PeerId, w: World, steps: seq<DriverStep>)
    requires cfg.localIdentity == Some(local) && KeysAtIds(cfg, local, w) && ListedTurns(cfg, w, steps)
    ensures var after := Turns(cfg, w, steps);
            && KeysAtIds(cfg, local, after)
            && (forall a, b :: a in after.sessions && b in after.sessions ==>
                  (KeyOf(after.sessions[a]) == KeyOf(after.sessions[b]) ==> a == b))
    decreases |steps|
  {
    hide Turn, ListedTurn, IdFor;
    if steps != [] {
      TurnKeepsKeys(cfg, local, w, steps[0]);
      WholeOneSessionPerKey(cfg, local, Turn(cfg, w, steps[0]), steps[1..]);
    }
  }
}
