/**
 What a successful authority reevaluation guarantees: no live session is denied, every key closed by
 policy is suppressed, the report accounts for every session and every suppression, and the listener
 view agrees with what is stored.
 */
module ReevaluationProofs {
  import opened Model
  import opened Policy
  import opened RelayWire
  import opened Transport
  import opened RelayLeases
  import opened AdapterRuns
  import opened SessionKeys
  import opened ControlPlane
  import opened ControlTraces
  import opened ControlRuns
  import opened ReconcileProofs
  import D = DurableState

  // ---------------------------------------------------------------- enforcement

  predicate EnforcedKey(d: D.DaemonState, runtimePeer: PeerId, key: SessionKey) {
    key.protocol.Some? && Enforcement(d, runtimePeer, key.peer, key.protocol.value).Some?
  }

  /** Enforcement spares a key exactly when nothing local forbids it and policy allows it. */
  lemma SparedExactly(d: D.DaemonState, runtimePeer: PeerId, key: SessionKey)
    requires key.protocol.Some?
    ensures !EnforcedKey(d, runtimePeer, key) <==>
            && d.membership.subject == runtimePeer
            && D.DenyReason(d, d.localPeer).None?
            && D.ExplainPolicy(d, key.peer, key.protocol.value).allowed
  {
    hide D.ExplainPolicy, D.DenyReason;
  }

  /** Whether a word without blanks that contains a 'd' occurs can be seen after a prefix without either. */
  lemma WordBehindPrefix(prefix: string, text: string, word: string)
    requires prefix != "" && prefix[|prefix| - 1] == ' ' && 'd' !in prefix
    requires ' ' !in word && 'd' in word
    ensures Contains(prefix + text, word) <==> Contains(text, word)
  {
    var whole := prefix + text;
    if i :| 0 <= i <= |whole| && StartsWith(whole[i..], word) {
      var j :| 0 <= j < |word| && word[j] == 'd';
      assert forall m :: i <= m < i + |word| ==> whole[m] == whole[i..][m - i] == word[m - i];
      assert whole[i + j] == 'd';
      assert i + j >= |prefix|;
      assert whole[|prefix| - 1] == ' ';
      assert i >= |prefix|;
      assert text[i - |prefix|..] == whole[i..];
      assert StartsWith(text[i - |prefix|..], word);
    }
    if i :| 0 <= i <= |text| && StartsWith(text[i..], word) {
      assert whole[|prefix| + i..] == text[i..];
      assert StartsWith(whole[|prefix| + i..], word);
    }
  }

  /**
   A refused session is put down to the peer's membership when the peer is denied, and also when the name
   of the protocol happens to contain one of the two words that the classification looks for.
   */
  lemma CauseExactly(d: D.DaemonState, peer: PeerId, protocol: ProtocolId)
    requires !D.ExplainPolicy(d, peer, protocol).allowed
    ensures RemoteCause(d, peer, D.ExplainPolicy(d, peer, protocol).reason) == PeerMembershipDenied <==>
            D.DenyReason(d, peer).Some? || Contains(protocol, "revoked") || Contains(protocol, "denied")
  {
    if D.DenyReason(d, peer).None? {
      var reason := D.ExplainPolicy(d, peer, protocol).reason;
      RefusalText(d, protocol);
      hide Contains, D.ExplainLocalPolicy;
      WordBehindPrefix("no active capability grants for ", protocol, "revoked");
      WordBehindPrefix("no active capability grants for ", protocol, "denied");
      WordBehindPrefix("no matching policy rule for ", protocol, "revoked");
      WordBehindPrefix("no matching policy rule for ", protocol, "denied");
    }
  }

  lemma RefusalText(d: D.DaemonState, protocol: ProtocolId)
    requires !D.ExplainLocalPolicy(d, protocol).allowed
    ensures D.ExplainLocalPolicy(d, protocol).reason == "no active capability grants for " + protocol
         || D.ExplainLocalPolicy(d, protocol).reason == "no matching policy rule for " + protocol
  {
    var grants := D.GrantsForPeer(d, d.localPeer);
    var rule := D.LocalRule(d, protocol);
    assert [rule][1..] == [];
    assert Evaluate([rule], d.network, d.localPeer, protocol, grants) ==
           if Matches(rule, d.network, d.localPeer, protocol, grants)
           then Decision(true, "Allow rule matched for " + protocol)
           else Evaluate([], d.network, d.localPeer, protocol, grants);
    hide Matches, D.GrantsForPeer;
  }

  // ---------------------------------------------------------------- one session

  lemma FailKeepsSuppressions(w: World, session: SessionSnapshot, reason: SessionClosureReason, text: string, now: nat)
    ensures FailAndClose(w, session, reason, text, now).0.suppressions == w.suppressions
  {
    hide CloseAt;
  }

  /** How much the suppression list grows in one session's turn. */
  function Growth(r: Reevaluation): int {
    match r
    case Skipped => 0
    case PolicyClosed(_, added) => One(added)
    case Kept(cleared) => if cleared then -1 else 0
    case Restyled(cleared) => if cleared then -1 else 0
    case Migrated_(cleared) => if cleared then -1 else 0
    case MigrationFailed(cleared) => 1 - One(cleared)
  }

  lemma EnforcedTurn(w: World, session: SessionSnapshot, cause: PolicyCause, reason: string, now: nat)
    requires UniqueKeys(w.suppressions)
    ensures var (after, outcome) := EnforceOn(w, session, cause, reason, now);
            && session.sessionId !in after.sessions
            && Suppressed(after, KeyOf(session)) && UniqueKeys(after.suppressions)
            && (outcome.Ok? ==> outcome.value.PolicyClosed? && outcome.value.cause == cause
                                && |after.suppressions| == |w.suppressions| + Growth(outcome.value))
  {
    hide CloseRuntimeSession, PushEvent, FindSuppression, PutSuppression, UniqueKeys;
    var key := KeyOf(session);
    var suppressed := SuppressReconnect(w, key, reason, now);
    var closing := UpdateSessionState(suppressed, session.sessionId, Closing, Some(PolicyRejected), Some(reason), now);
    var noted := Emit(closing, "authority.policy_enforced", "session", session.sessionId, now);
    CloseStores(noted, session, now);
    CloseTouches(noted, session, now);
    PutFinds(w.suppressions, ReconnectSuppression(key, reason, now), key);
    PutKeepsUnique(w.suppressions, ReconnectSuppression(key, reason, now));
  }

  lemma RehomedTurn(cfg: Config, w: World, session: SessionSnapshot, route: RoutePlan, cleared: bool, inputs: Inputs)
    requires UniqueKeys(w.suppressions) && !Suppressed(w, KeyOf(session))
    ensures var (after, outcome) := Rehome(cfg, w, session, route, cleared, inputs);
            && UniqueKeys(after.suppressions)
            && (outcome.Ok? ==> (outcome.value == Migrated_(cleared) || outcome.value == MigrationFailed(cleared))
                                && |after.suppressions| == |w.suppressions| + One(outcome.value.MigrationFailed?))
  {
    hide Migrate, FailAndClose, PushEvent, FindSuppression, PutSuppression, UniqueKeys;
    var id, now := session.sessionId, inputs.now;
    var started := Emit(w, "path.migration_started", "session", id, now);
    var marked := UpdateSessionState(started, id, Migrating, None, Some(BETTER_PATH), now);
    MigrateTouches(cfg, marked, id, route, inputs);
    var (moved, outcome) := Migrate(cfg, marked, id, route, inputs);
    if outcome.Err? {
      var reason := "authority reevaluation migration failed: " + ErrorText(outcome.error);
      FailKeepsSuppressions(moved, session, LocalRuntimeFailure, reason, now);
      PutFinds(w.suppressions, ReconnectSuppression(KeyOf(session), reason, now), KeyOf(session));
      PutKeepsUnique(w.suppressions, ReconnectSuppression(KeyOf(session), reason, now));
    }
  }

  lemma KeptTurn(cfg: Config, d: D.DaemonState, w: World, session: SessionSnapshot, inputs: Inputs)
    requires UniqueKeys(w.suppressions)
    ensures var (after, outcome) := KeepOrMove(cfg, d, w, session, inputs);
            && UniqueKeys(after.suppressions)
            && (outcome.Ok? ==> !outcome.value.PolicyClosed? && !outcome.value.Skipped?
                                && |after.suppressions| == |w.suppressions| + Growth(outcome.value))
  {
    hide Rehome, PushEvent, FindSuppression, DropSuppression, UniqueKeys, SessionMatchesRoute, D.PlanRoute,
         DegradeSession, UpdateSessionState;
    var key := KeyOf(session);
    var cleared := FindSuppression(w.suppressions, key).Some?;
    var w1 := ClearSuppression(w, key, inputs.now);
    DropFinds(w.suppressions, key, key);
    DropKeepsUnique(w.suppressions, key);
    var planned := D.PlanRoute(d, session.peer, session.protocol, session.class_);
    match planned {
      case Ok(route) =>
        if SessionMatchesRoute(session, route) {
          UpdateKeepsSuppressions(w1, session.sessionId, Active, "authority reevaluation restored the selected path posture", inputs.now);
        } else if session.migrationCapable {
          RehomedTurn(cfg, w1, session, route, cleared, inputs);
        } else {
          DegradeKeepsSuppressions(w1, session, CANNOT_MIGRATE, inputs.now);
        }
      case Err(_) => DegradeKeepsSuppressions(w1, session, NO_REPLACEMENT, inputs.now);
    }
  }

  lemma DegradeKeepsSuppressions(w: World, session: SessionSnapshot, reason: string, now: nat)
    ensures DegradeSession(w, session, reason, now).suppressions == w.suppressions
  {
    hide PushEvent;
  }

  lemma UpdateKeepsSuppressions(w: World, id: SessionId, state: RuntimeSessionState, reason: string, now: nat)
    ensures UpdateSessionState(w, id, state, None, Some(reason), now).suppressions == w.suppressions
  {
    hide PushEvent;
  }

  lemma ReevaluatedTurn(cfg: Config, d: D.DaemonState, runtimePeer: PeerId, w: World, session: SessionSnapshot, inputs: Inputs)
    requires UniqueKeys(w.suppressions)
    ensures var (after, outcome) := ReevaluateOne(cfg, d, runtimePeer, w, session, inputs);
            && UniqueKeys(after.suppressions)
            && (EnforcedKey(d, runtimePeer, KeyOf(session)) ==>
                  session.sessionId !in after.sessions && Suppressed(after, KeyOf(session)))
            && (outcome.Ok? ==>
                  && (outcome.value.Skipped? <==> session.protocol.None?)
                  && (outcome.value.PolicyClosed? <==> EnforcedKey(d, runtimePeer, KeyOf(session)))
                  && |after.suppressions| == |w.suppressions| + Growth(outcome.value))
  {
    hide EnforceOn, KeepOrMove, Enforcement, UniqueKeys;
    if session.protocol.Some? {
      match Enforcement(d, runtimePeer, session.peer, session.protocol.value)
      case Some(enforced) => EnforcedTurn(w, session, enforced.0, enforced.1, inputs.now);
      case None => KeptTurn(cfg, d, w, session, inputs);
    }
  }

  // ---------------------------------------------------------------- the tally

  function CountWithProtocol(order: seq<SessionSnapshot>): nat {
    |Filter(order, (s: SessionSnapshot) => s.protocol.Some?)|
  }

  function CountEnforced(d: D.DaemonState, runtimePeer: PeerId, order: seq<SessionSnapshot>): nat {
    |Filter(order, (s: SessionSnapshot) => EnforcedKey(d, runtimePeer, KeyOf(s)))|
  }

  function PolicyClosures(t: SessionTally): nat {
    t.subjectMismatch + t.localDenied + t.peerDenied + t.capabilityDenied
  }

  /** The closures that no cause is counted for. */
  function OtherClosures(t: SessionTally): int {
    t.closed - PolicyClosures(t)
  }

  /** The change of the suppression list that a tally stands for: the last part is not in its counters. */
  function Net(t: SessionTally): int {
    t.suppressionsAdded - t.suppressionsCleared + OtherClosures(t)
  }

  /** How many turns of the pass, from position `i` on, end with a failed migration. */
  function FailedMigrations(cfg: Config, d: D.DaemonState, runtimePeer: PeerId, w: World, order: seq<SessionSnapshot>,
                            inputs: InputStream, i: nat): nat
    decreases |order| - i
  {
    if i >= |order| then 0
    else
      var (next, outcome) := ReevaluateOne(cfg, d, runtimePeer, w, order[i], inputs(i));
      match outcome
      case Err(_) => 0
      case Ok(r) => One(r.MigrationFailed?) + FailedMigrations(cfg, d, runtimePeer, next, order, inputs, i + 1)
  }

  /** Each session with a protocol lands in one column, and each policy closure in one cause. */
  predicate Balanced(t: SessionTally) {
    && t.reevaluated == t.closed + t.degraded + t.migrated + t.untouched
    && PolicyClosures(t) <= t.closed
  }

  predicate Empty(t: SessionTally) {
    t.reevaluated == 0 && PolicyClosures(t) == 0 && OtherClosures(t) == 0 && Net(t) == 0 && Balanced(t)
  }

  lemma NoCauses()
    ensures PolicyClosures(NO_TALLY) == 0
  {
  }

  lemma NoColumns()
    ensures NO_TALLY.reevaluated == NO_TALLY.closed + NO_TALLY.degraded + NO_TALLY.migrated + NO_TALLY.untouched
  {
  }

  lemma FromNothing(t: SessionTally)
    requires PolicyClosures(t) == t.closed && t.suppressionsAdded == t.suppressionsCleared
    ensures OtherClosures(t) == 0 && Net(t) == 0
  {
    hide PolicyClosures;
  }

  lemma EmptyStart()
    ensures Empty(NO_TALLY)
  {
    NoCauses();
    NoColumns();
    hide PolicyClosures, OtherClosures, Net;
    FromNothing(NO_TALLY);
  }

  lemma TallyStep(t: SessionTally, r: Reevaluation)
    requires Balanced(t)
    ensures var next := AddTo(t, r);
            && Balanced(next)
            && next.reevaluated == t.reevaluated + One(!r.Skipped?)
            && PolicyClosures(next) == PolicyClosures(t) + One(r.PolicyClosed?)
            && OtherClosures(next) == OtherClosures(t) + One(r.MigrationFailed?)
            && Net(next) - Net(t) == Growth(r)
  {
  }

  lemma CountsStep(d: D.DaemonState, runtimePeer: PeerId, order: seq<SessionSnapshot>, i: nat)
    requires i < |order|
    ensures CountWithProtocol(order[i..]) == CountWithProtocol(order[i + 1..]) + One(order[i].protocol.Some?)
    ensures CountEnforced(d, runtimePeer, order[i..]) ==
            CountEnforced(d, runtimePeer, order[i + 1..]) + One(EnforcedKey(d, runtimePeer, KeyOf(order[i])))
  {
    hide EnforcedKey;
    assert order[i..][1..] == order[i + 1..];
  }

  // ---------------------------------------------------------------- the whole loop

  /** The enforced sessions before position `i` are gone and their keys suppressed. */
  ghost predicate DoneEnforced(d: D.DaemonState, runtimePeer: PeerId, w: World, order: seq<SessionSnapshot>, i: nat) {
    forall k :: 0 <= k < i && k < |order| && EnforcedKey(d, runtimePeer, KeyOf(order[k])) ==>
      order[k].sessionId !in w.sessions && Suppressed(w, KeyOf(order[k]))
  }

  ghost predicate AllStillServe(w: World, order: seq<SessionSnapshot>) {
    forall k :: 0 <= k < |order| ==> StillServes(w, order[k])
  }

  lemma EnforcedNext(d: D.DaemonState, runtimePeer: PeerId, w: World, next: World, order: seq<SessionSnapshot>, i: nat)
    requires i < |order| && DoneEnforced(d, runtimePeer, w, order, i) && AsListed(w, order, i)
    requires Confined(w, next, order[i].sessionId, KeyOf(order[i]))
    requires EnforcedKey(d, runtimePeer, KeyOf(order[i])) ==>
      order[i].sessionId !in next.sessions && Suppressed(next, KeyOf(order[i]))
    ensures DoneEnforced(d, runtimePeer, next, order, i + 1)
  {
    hide EnforcedKey, FindSuppression;
    var id := order[i].sessionId;
    forall k | 0 <= k < i && EnforcedKey(d, runtimePeer, KeyOf(order[k]))
      ensures order[k].sessionId !in next.sessions && Suppressed(next, KeyOf(order[k]))
    {
      assert order[k].sessionId !in w.sessions - {id};
      assert order[k].sessionId !in next.sessions - {id};
    }
  }

  lemma ServeNext(w: World, next: World, order: seq<SessionSnapshot>, i: nat)
    requires i < |order| && AllStillServe(w, order) && AsListed(w, order, i)
    requires Confined(w, next, order[i].sessionId, KeyOf(order[i])) && StillServes(next, order[i])
    ensures AllStillServe(next, order)
  {
    var id := order[i].sessionId;
    forall k | 0 <= k < |order| ensures StillServes(next, order[k]) {
      assert StillServes(w, order[k]);
      if order[k].sessionId in next.sessions && order[k].sessionId != id {
        assert order[k].sessionId in next.sessions - {id} && order[k].sessionId in w.sessions - {id};
        assert (next.sessions - {id})[order[k].sessionId] == (w.sessions - {id})[order[k].sessionId];
      } else if order[k].sessionId == id {
        assert k == i;
      }
    }
  }

  lemma {:induction false} LoopEnforces(cfg: Config, d: D.DaemonState, runtimePeer: PeerId, w: World,
                                        order: seq<SessionSnapshot>, inputs: InputStream, i: nat, tally: SessionTally)
    requires AtOwnIds(w) && AsListed(w, order, i) && AllStillServe(w, order) && KeysWithin(w, order)
    requires UniqueKeys(w.suppressions) && DoneEnforced(d, runtimePeer, w, order, i) && Balanced(tally) && i <= |order|
    requires ReevaluateFrom(cfg, d, runtimePeer, w, order, inputs, i, tally).1.Ok?
    ensures var (after, outcome) := ReevaluateFrom(cfg, d, runtimePeer, w, order, inputs, i, tally);
            var t := outcome.value;
            && AllStillServe(after, order) && KeysWithin(after, order)
            && DoneEnforced(d, runtimePeer, after, order, |order|)
            && UniqueKeys(after.suppressions) && Balanced(t)
            && t.reevaluated == tally.reevaluated + CountWithProtocol(order[i..])
            && PolicyClosures(t) == PolicyClosures(tally) + CountEnforced(d, runtimePeer, order[i..])
            && OtherClosures(t) == OtherClosures(tally) + FailedMigrations(cfg, d, runtimePeer, w, order, inputs, i)
            && |after.suppressions| - |w.suppressions| == Net(t) - Net(tally)
    decreases |order| - i
  {
    hide ReevaluateOne, EnforcedKey, Confined, UniqueKeys, StillServes, AtOwnIds, FindSuppression, PolicyClosures, OtherClosures, Balanced, Net,
         AsListed, AllStillServe, KeysWithin, DoneEnforced, CountWithProtocol, CountEnforced;
    if i < |order| {
      var session := order[i];
      var (next, outcome) := ReevaluateOne(cfg, d, runtimePeer, w, session, inputs(i));
      ServesAt(w, order, i);
      ReevaluateConfined(cfg, d, runtimePeer, w, session, inputs(i));
      ReevaluatedTurn(cfg, d, runtimePeer, w, session, inputs(i));
      AsListedNext(w, next, order, i);
      EnforcedNext(d, runtimePeer, w, next, order, i);
      ServeNext(w, next, order, i);
      KeysStayWithin(w, next, order, session.sessionId, KeyOf(session));
      TallyStep(tally, outcome.value);
      CountsStep(d, runtimePeer, order, i);
      LoopEnforces(cfg, d, runtimePeer, next, order, inputs, i + 1, AddTo(tally, outcome.value));
    } else {
      assert order[i..] == [];
      NoCounts(d, runtimePeer);
    }
  }

  lemma ServesAt(w: World, order: seq<SessionSnapshot>, i: nat)
    requires AllStillServe(w, order) && i < |order|
    ensures StillServes(w, order[i])
  {
  }

  lemma NoCounts(d: D.DaemonState, runtimePeer: PeerId)
    ensures CountWithProtocol([]) == 0 && CountEnforced(d, runtimePeer, []) == 0
  {
  }

  lemma ListedServes(w: World, order: seq<SessionSnapshot>)
    requires Lists(order, w.sessions)
    ensures AllStillServe(w, order) && KeysWithin(w, order) && AsListed(w, order, 0)
  {
  }

  /** Nothing that policy or the local reason forbids is live. */
  ghost predicate NoneDenied(d: D.DaemonState, runtimePeer: PeerId, w: World) {
    forall id :: id in w.sessions && w.sessions[id].protocol.Some? ==>
      && D.ExplainPolicy(d, w.sessions[id].peer, w.sessions[id].protocol.value).allowed
      && LocalReason(d, runtimePeer).None?
  }

  /** The columns, the causes and the change of the suppression list, in terms of the listed sessions. */
  ghost predicate Accounted(d: D.DaemonState, runtimePeer: PeerId, order: seq<SessionSnapshot>, t: SessionTally,
                            failed: nat, before: nat, after: nat) {
    && t.reevaluated == CountWithProtocol(order)
    && t.reevaluated == t.closed + t.degraded + t.migrated + t.untouched
    && t.subjectMismatch + t.localDenied + t.peerDenied + t.capabilityDenied == CountEnforced(d, runtimePeer, order)
    && t.closed == CountEnforced(d, runtimePeer, order) + failed
    && after == before + t.suppressionsAdded - t.suppressionsCleared + failed
  }

  lemma PassEnforces(cfg: Config, d: D.DaemonState, runtimePeer: PeerId, w: World, order: seq<SessionSnapshot>,
                     inputs: InputStream, tally: SessionTally)
    requires AtOwnIds(w) && Lists(order, w.sessions) && UniqueKeys(w.suppressions) && Empty(tally)
    requires ReevaluateFrom(cfg, d, runtimePeer, w, order, inputs, 0, tally).1.Ok?
    ensures var (after, outcome) := ReevaluateFrom(cfg, d, runtimePeer, w, order, inputs, 0, tally);
            && NoneDenied(d, runtimePeer, after)
            && DoneEnforced(d, runtimePeer, after, order, |order|)
            && UniqueKeys(after.suppressions)
            && Accounted(d, runtimePeer, order, outcome.value,
                         FailedMigrations(cfg, d, runtimePeer, w, order, inputs, 0), |w.suppressions|, |after.suppressions|)
  {
    ListedServes(w, order);
    NothingDone(d, runtimePeer, w, order);
    hide UniqueKeys, AsListed, CountWithProtocol, CountEnforced, AllStillServe, KeysWithin, ReevaluateFrom, AtOwnIds,
         Lists, NoneDenied, DoneEnforced, Accounted, Balanced, PolicyClosures, OtherClosures, Net, FailedMigrations;
    LoopEnforces(cfg, d, runtimePeer, w, order, inputs, 0, tally);
    var (after, outcome) := ReevaluateFrom(cfg, d, runtimePeer, w, order, inputs, 0, tally);
    LiveAreSpared(d, runtimePeer, after, order);
    assert order[0..] == order;
    AccountsFromStart(d, runtimePeer, order, outcome.value, FailedMigrations(cfg, d, runtimePeer, w, order, inputs, 0),
                      |w.suppressions|, |after.suppressions|);
  }

  lemma NothingDone(d: D.DaemonState, runtimePeer: PeerId, w: World, order: seq<SessionSnapshot>)
    ensures DoneEnforced(d, runtimePeer, w, order, 0)
  {
  }

  lemma AccountsFromStart(d: D.DaemonState, runtimePeer: PeerId, order: seq<SessionSnapshot>, t: SessionTally,
                          failed: nat, before: nat, after: nat)
    requires Balanced(t)
    requires t.reevaluated == CountWithProtocol(order)
    requires PolicyClosures(t) == CountEnforced(d, runtimePeer, order) && OtherClosures(t) == failed
    requires after - before == Net(t)
    ensures Accounted(d, runtimePeer, order, t, failed, before, after)
  {
    hide CountWithProtocol, CountEnforced;
  }

  function ReevaluationStarted(w: World, runtimePeer: PeerId, now: nat): World {
    Emit(w, "authority.reevaluation_started", "authority", runtimePeer, now)
  }

  /**
   After a successful pass over the listed sessions: every live session with a protocol is allowed and
   nothing local forbids it; every session that policy refused is gone and its key suppressed; the
   columns of the report sum up; the suppression list grew by what was added less what was cleared, plus
   one for each failed migration, which the report does not count.
   */
  lemma ReevaluationEnforces(cfg: Config, d: D.DaemonState, runtimePeer: PeerId, w: World, order: seq<SessionSnapshot>,
                             inputs: InputStream, now: nat)
    requires AtOwnIds(w) && Lists(order, w.sessions) && UniqueKeys(w.suppressions)
    requires ReevaluateSessions(cfg, d, runtimePeer, w, order, inputs, now).1.Ok?
    ensures var (after, outcome) := ReevaluateSessions(cfg, d, runtimePeer, w, order, inputs, now);
            && NoneDenied(d, runtimePeer, after)
            && DoneEnforced(d, runtimePeer, after, order, |order|)
            && UniqueKeys(after.suppressions)
            && Accounted(d, runtimePeer, order, outcome.value,
                         FailedMigrations(cfg, d, runtimePeer, ReevaluationStarted(w, runtimePeer, now), order, inputs, 0),
                         |w.suppressions|, |after.suppressions|)
  {
    EmptyStart();
    hide UniqueKeys, ReevaluateFrom, Lists, PushEvent, NoneDenied, DoneEnforced, Accounted, Empty, FailedMigrations;
    PassEnforces(cfg, d, runtimePeer, ReevaluationStarted(w, runtimePeer, now), order, inputs, NO_TALLY);
  }

  lemma LiveAreSpared(d: D.DaemonState, runtimePeer: PeerId, after: World, order: seq<SessionSnapshot>)
    requires AllStillServe(after, order) && KeysWithin(after, order)
    requires DoneEnforced(d, runtimePeer, after, order, |order|)
    ensures NoneDenied(d, runtimePeer, after)
  {
    hide EnforcedKey, D.ExplainPolicy, D.DenyReason;
    forall id | id in after.sessions && after.sessions[id].protocol.Some?
      ensures D.ExplainPolicy(d, after.sessions[id].peer, after.sessions[id].protocol.value).allowed
      ensures LocalReason(d, runtimePeer).None?
    {
      var k :| 0 <= k < |order| && order[k].sessionId == id;
      assert StillServes(after, order[k]);
      SparedExactly(d, runtimePeer, KeyOf(after.sessions[id]));
    }
  }

  // ---------------------------------------------------------------- listeners

  lemma ListenerTurn(d: D.DaemonState, localReason: Option<string>, w: World, id: string, now: nat, t: ListenerTally)
    requires id in w.listeners
    ensures var (after, counted) := ListenerOne(d, localReason, w, id, now, t);
            && after.listeners == w.listeners[id := Judged(d, localReason, w.listeners[id])]
            && counted.reevaluated == t.reevaluated + 1
  {
    hide EnforcedReason, PushEvent;
    assert w.listeners[id := w.listeners[id]] == w.listeners;
  }

  lemma {:induction false} ListenersJudged(d: D.DaemonState, localReason: Option<string>, w: World, order: seq<string>,
                                           now: nat, i: nat, t: ListenerTally)
    requires forall k :: 0 <= k < |order| ==> order[k] in w.listeners
    requires forall j, k :: 0 <= j < k < |order| ==> order[j] != order[k]
    requires i <= |order|
    ensures var (after, counted) := ListenersFrom(d, localReason, w, order, now, i, t);
            && after.listeners.Keys == w.listeners.Keys && after.sessions == w.sessions
            && (forall k :: i <= k < |order| ==> after.listeners[order[k]] == Judged(d, localReason, w.listeners[order[k]]))
            && (forall id :: id in w.listeners && id !in order[i..] ==> after.listeners[id] == w.listeners[id])
            && counted.reevaluated == t.reevaluated + |order| - i
    decreases |order| - i
  {
    hide Judged, ListenerOne;
    if i < |order| {
      var (next, counted) := ListenerOne(d, localReason, w, order[i], now, t);
      ListenerTurn(d, localReason, w, order[i], now, t);
      ListenerKeepsSessions(d, localReason, w, order[i], now, t);
      ListenersJudged(d, localReason, next, order, now, i + 1, counted);
      assert order[i] !in order[i + 1..];
      assert order[i..] == [order[i]] + order[i + 1..];
    }
  }

  lemma ListenerKeepsSessions(d: D.DaemonState, localReason: Option<string>, w: World, id: string, now: nat, t: ListenerTally)
    requires id in w.listeners
    ensures ListenerOne(d, localReason, w, id, now, t).0.sessions == w.sessions
  {
    hide EnforcedReason, PushEvent;
  }

  /** Judging a judged listener changes nothing. */
  lemma JudgedTwice(d: D.DaemonState, localReason: Option<string>, l: ListenerSnapshot)
    ensures Judged(d, localReason, Judged(d, localReason, l)) == Judged(d, localReason, l)
  {
    hide D.ExplainLocalPolicy;
  }

  /**
   When the runtime identity is the state's local peer, the listener view after a reevaluation shows
   exactly what is stored.
   */
  lemma ViewShowsStored(d: D.DaemonState, runtimePeer: PeerId, w: World, order: seq<string>, now: nat)
    requires Enumerates(order, w.listeners.Keys) && runtimePeer == d.localPeer
    ensures var after := ListenersFrom(d, LocalReason(d, runtimePeer), w, order, now, 0, ListenerTally(0, 0, 0)).0;
            RuntimeListeners(d, after) == after.listeners
  {
    hide Judged;
    forall k | 0 <= k < |order| ensures order[k] in w.listeners {
      assert order[k] in w.listeners.Keys;
    }
    var reason := LocalReason(d, runtimePeer);
    ListenersJudged(d, reason, w, order, now, 0, ListenerTally(0, 0, 0));
    var after := ListenersFrom(d, reason, w, order, now, 0, ListenerTally(0, 0, 0)).0;
    forall id | id in after.listeners ensures Judged(d, reason, after.listeners[id]) == after.listeners[id] {
      assert id in w.listeners.Keys && id in order;
      var k :| 0 <= k < |order| && order[k] == id;
      JudgedTwice(d, reason, w.listeners[id]);
    }
  }
}
