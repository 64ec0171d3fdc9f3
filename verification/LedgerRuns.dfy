/**
 The ledger over runs of the adapter: what it holds is what the run closed.
 */
module LedgerRuns {
  import opened Model
  import opened Transport
  import opened Ledger
  import opened AdapterRuns
  import opened SessionKeys

  /** The record of a live session as it is when it has been closed: its own reasons win over the caller's. */
  function ClosedRecord(w: World, session: SessionSnapshot, now: nat): SessionSnapshot
    requires session.sessionId in w.sessions
  {
    var live := w.sessions[session.sessionId];
    live.(state := Closed_, lastActivity := now,
          closureReason := if live.closureReason.Some? then live.closureReason else session.closureReason,
          stateReason := if live.stateReason.Some? then live.stateReason else session.stateReason)
  }

  /** What one step closes: the session of a close that succeeds, and nothing else. */
  function StepCloses(w: World, step: AdapterStep): seq<SessionSnapshot> {
    match step
    case CloseStep(session, now) =>
      if session.sessionId in w.sessions && CloseRuntimeSession(w, session, now).1.Ok?
      then [ClosedRecord(w, session, now)] else []
    case _ => []
  }

  function Closes(cfg: Config, w: World, steps: seq<AdapterStep>): seq<SessionSnapshot>
    decreases |steps|
  {
    if steps == [] then [] else StepCloses(w, steps[0]) + Closes(cfg, Step(cfg, w, steps[0]), steps[1..])
  }

  lemma CloseRecords(w: World, session: SessionSnapshot, now: nat)
    ensures var after := CloseRuntimeSession(w, session, now).0;
            after.terminal == PushAllTerminal(w.terminal, StepCloses(w, CloseStep(session, now)))
  {
    hide PushTerminal, PushEvent, CloseAt;
    var closes := StepCloses(w, CloseStep(session, now));
    if closes != [] {
      assert closes[1..] == [];
    }
  }

  lemma StepRecords(cfg: Config, w: World, step: AdapterStep)
    ensures Step(cfg, w, step).terminal == PushAllTerminal(w.terminal, StepCloses(w, step))
  {
    hide Connect, Migrate, CloseRuntimeSession, PushTerminal, PushEvent, OpenAt, CloseAt, FindSuppression, PutSuppression,
         DropSuppression, FindAttempt, PutAttempt, DropAttempt, NextAttempt, ClearedEvent;
    match step
    case ConnectStep(route, inputs) => ConnectTouches(cfg, w, route, inputs);
    case MigrateStep(id, route, inputs) => MigrateTouches(cfg, w, id, route, inputs);
    case CloseStep(session, now) => CloseRecords(w, session, now);
    case _ =>
  }

  /**
   After any run the ledger holds the 32 most recently closed distinct sessions of the whole history, as
   they were when they were closed, in the order of their last close.
   */
  lemma {:induction false} RunRecords(cfg: Config, w: World, steps: seq<AdapterStep>, history: seq<SessionSnapshot>)
    requires w.terminal == LedgerOf(history)
    ensures Run(cfg, w, steps).terminal == LedgerOf(history + Closes(cfg, w, steps))
    decreases |steps|
  {
    hide Step, StepCloses, LedgerOf, PushAllTerminal;
    if steps == [] {
      assert history + [] == history;
    } else {
      var closes := StepCloses(w, steps[0]);
      StepRecords(cfg, w, steps[0]);
      LedgerRefinesHistory(history, closes);
      RunRecords(cfg, Step(cfg, w, steps[0]), steps[1..], history + closes);
      var rest := Closes(cfg, Step(cfg, w, steps[0]), steps[1..]);
      assert (history + closes) + rest == history + (closes + rest);
    }
  }

  /** A connected session takes the id of its key, and shares it with the ledger exactly when the ledger had it. */
  lemma LedgerSharesIds(cfg: Config, w: World, route: RoutePlan, inputs: Inputs)
    requires Connect(cfg, w, route, inputs).1.Ok?
    ensures var after := Connect(cfg, w, route, inputs).0;
            var id := LogicalSessionId(cfg, route);
            && Connect(cfg, w, route, inputs).1.value.sessionId == id && id in after.sessions
            && (HasId(after.terminal, id) <==> HasId(w.terminal, id))
  {
    ConnectTouches(cfg, w, route, inputs);
    SnapshotShape(cfg, w, route, inputs);
    UpsertShape(SnapshotForRoute(cfg, w, route, inputs).0, SnapshotForRoute(cfg, w, route, inputs).1.value, inputs.now);
    hide SnapshotForRoute, Upsert, LogicalSessionId, FindSuppression, PushEvent;
  }
}
