/**
 What a reevaluation does to the listeners, and what the listener view shows, on the fields of the listeners,
 the grants and the revocations.
 */
module ListenerProofs {
  import opened Model
  import opened Transport
  import opened ControlPlane
  import opened ReevaluationProofs
  import D = DurableState
  import P = DurableProofs

  /** Nothing may run: the authority's subject is not the runtime's identity, or the local peer is denied. */
  lemma LocalReasonExactly(d: D.DaemonState, runtimePeer: PeerId)
    ensures LocalReason(d, runtimePeer).Some? <==>
            d.membership.subject != runtimePeer || exists e :: e in d.denied && e.peer == d.localPeer
    ensures d.membership.subject == runtimePeer && LocalReason(d, runtimePeer).Some? ==>
            D.DeniedPeer(d.localPeer, LocalReason(d, runtimePeer).value) in d.denied
  {
    P.DenyOnFields(d.denied, d.localPeer);
    hide D.FindDenied;
  }

  /** A listener that may not serve: a local reason, or no grant that covers its protocol. */
  ghost predicate MayNotServe(d: D.DaemonState, localReason: Option<string>, l: ListenerSnapshot) {
    localReason.Some? || !P.Covered(d, l.protocol)
  }

  /**
   The relation between a listener before and after the judgement. A failed one is untouched. Another one is
   suppressed, with the local reason or else policy's, exactly when it may not serve, and otherwise active;
   an active one that may serve is left as it was.
   */
  ghost predicate JudgedAs(d: D.DaemonState, localReason: Option<string>, before: ListenerSnapshot, after: ListenerSnapshot) {
    && after.listenerId == before.listenerId && after.protocol == before.protocol
    && after.advertise == before.advertise && after.startedAt == before.startedAt
    && (before.state == ListenerFailed ==> after == before)
    && (before.state != ListenerFailed ==>
          && (after.state == ListenerSuppressed <==> MayNotServe(d, localReason, before))
          && (after.state == ListenerActive <==> !MayNotServe(d, localReason, before))
          && (localReason.Some? ==> after.stateReason == localReason)
          && (localReason.None? && after.state == ListenerSuppressed ==>
                after.stateReason == Some(D.ExplainLocalPolicy(d, before.protocol).reason))
          && (after.state == ListenerActive && before.state == ListenerActive ==> after == before)
          && (after.state == ListenerActive && before.state == ListenerSuppressed ==> after.stateReason == None))
  }

  lemma JudgedOnFields(d: D.DaemonState, localReason: Option<string>, l: ListenerSnapshot)
    ensures JudgedAs(d, localReason, l, Judged(d, localReason, l))
  {
    P.LocalPolicyOnFields(d, l.protocol);
    hide D.ExplainLocalPolicy, P.Covered;
  }

  // ---------------------------------------------------------------- the counters

  /** The listener ends in this state and is not as it was. */
  predicate TurnedInto(before: map<string, ListenerSnapshot>, after: map<string, ListenerSnapshot>, state: ListenerState,
                       id: string) {
    id in before && id in after && after[id].state == state && after[id] != before[id]
  }

  function CountTurned(before: map<string, ListenerSnapshot>, after: map<string, ListenerSnapshot>, state: ListenerState,
                       order: seq<string>): nat {
    |Filter(order, (id: string) => TurnedInto(before, after, state, id))|
  }

  lemma TurnCounts(d: D.DaemonState, localReason: Option<string>, w: World, id: string, now: nat, t: ListenerTally)
    requires id in w.listeners
    ensures var (after, counted) := ListenerOne(d, localReason, w, id, now, t);
            var judged := Judged(d, localReason, w.listeners[id]);
            && counted.suppressed ==
               t.suppressed + One(judged.state == ListenerSuppressed && judged != w.listeners[id])
            && counted.restored == t.restored + One(judged.state == ListenerActive && judged != w.listeners[id])
  {
    hide EnforcedReason, PushEvent, UpdateListener;
  }

  lemma CountCons(before: map<string, ListenerSnapshot>, after: map<string, ListenerSnapshot>, state: ListenerState,
                  order: seq<string>, i: nat)
    requires i < |order|
    ensures CountTurned(before, after, state, order[i..]) ==
            One(TurnedInto(before, after, state, order[i])) + CountTurned(before, after, state, order[i + 1..])
  {
    hide TurnedInto;
    assert order[i..][1..] == order[i + 1..];
  }

  /** Each counter grows by the listeners that the rest of the loop turns. */
  lemma {:induction false} LoopCounts(d: D.DaemonState, localReason: Option<string>, w: World, order: seq<string>, now: nat,
                                      i: nat, t: ListenerTally, before: map<string, ListenerSnapshot>,
                                      final: map<string, ListenerSnapshot>)
    requires forall k :: 0 <= k < |order| ==> order[k] in w.listeners && order[k] in before && order[k] in final
    requires forall j, k :: 0 <= j < k < |order| ==> order[j] != order[k]
    requires forall k :: i <= k < |order| ==> w.listeners[order[k]] == before[order[k]]
    requires forall k :: 0 <= k < |order| ==> final[order[k]] == Judged(d, localReason, before[order[k]])
    requires i <= |order|
    ensures var counted := ListenersFrom(d, localReason, w, order, now, i, t).1;
            && counted.suppressed == t.suppressed + CountTurned(before, final, ListenerSuppressed, order[i..])
            && counted.restored == t.restored + CountTurned(before, final, ListenerActive, order[i..])
    decreases |order| - i
  {
    hide Judged, ListenerOne, CountTurned;
    if i < |order| {
      var (next, counted) := ListenerOne(d, localReason, w, order[i], now, t);
      ListenerTurn(d, localReason, w, order[i], now, t);
      TurnCounts(d, localReason, w, order[i], now, t);
      LoopCounts(d, localReason, next, order, now, i + 1, counted, before, final);
      CountCons(before, final, ListenerSuppressed, order, i);
      CountCons(before, final, ListenerActive, order, i);
    } else {
      assert order[i..] == [];
      NothingTurned(before, final, ListenerSuppressed);
      NothingTurned(before, final, ListenerActive);
    }
  }

  lemma NothingTurned(before: map<string, ListenerSnapshot>, after: map<string, ListenerSnapshot>, state: ListenerState)
    ensures CountTurned(before, after, state, []) == 0
  {
  }

  // ---------------------------------------------------------------- the whole loop

  /**
   After the listener half of a reevaluation each listener that has not failed is suppressed exactly when it
   may not serve, and active otherwise; the report counts each listener once, as suppressed those that the
   loop suppressed or gave a new reason, and as restored those that it made active again.
   */
  lemma ReevaluatedListeners(d: D.DaemonState, runtimePeer: PeerId, w: World, order: seq<string>, now: nat)
    requires Enumerates(order, w.listeners.Keys)
    requires forall k :: 0 <= k < |order| ==> order[k] in w.listeners
    ensures var reason := LocalReason(d, runtimePeer);
            var (after, counted) := ListenersFrom(d, reason, w, order, now, 0, ListenerTally(0, 0, 0));
            && after.listeners.Keys == w.listeners.Keys
            && (forall id :: id in w.listeners ==> JudgedAs(d, reason, w.listeners[id], after.listeners[id]))
            && counted.reevaluated == |w.listeners|
            && counted.suppressed == CountTurned(w.listeners, after.listeners, ListenerSuppressed, order)
            && counted.restored == CountTurned(w.listeners, after.listeners, ListenerActive, order)
  {
    hide Judged, JudgedAs, LocalReason, CountTurned, ListenersFrom;
    var reason := LocalReason(d, runtimePeer);
    ListenersJudged(d, reason, w, order, now, 0, ListenerTally(0, 0, 0));
    var (after, counted) := ListenersFrom(d, reason, w, order, now, 0, ListenerTally(0, 0, 0));
    forall id | id in w.listeners ensures JudgedAs(d, reason, w.listeners[id], after.listeners[id]) {
      assert id in w.listeners.Keys && id in order;
      var k :| 0 <= k < |order| && order[k] == id;
      JudgedOnFields(d, reason, w.listeners[id]);
    }
    forall k | 0 <= k < |order| ensures order[k] in after.listeners {
      assert order[k] in w.listeners.Keys;
    }
    LoopCounts(d, reason, w, order, now, 0, ListenerTally(0, 0, 0), w.listeners, after.listeners);
    assert order[0..] == order;
    CountEnumerated(order, w.listeners.Keys);
  }

  lemma {:induction false} CountEnumerated(order: seq<string>, keys: set<string>)
    requires Enumerates(order, keys)
    ensures |order| == |keys|
  {
    if order == [] {
      assert forall k :: k in keys ==> k in order;
      assert keys == {};
    } else {
      var last := order[|order| - 1];
      var front := order[..|order| - 1];
      assert last in keys;
      forall k ensures k in front <==> k in keys - {last} {
        if k in keys && k != last {
          var i :| 0 <= i < |order| && order[i] == k;
          assert front[i] == k;
        }
        if k in front {
          var i :| 0 <= i < |front| && front[i] == k;
          assert order[i] == k;
        }
      }
      CountEnumerated(front, keys - {last});
    }
  }

  /** The listener view judges in the same way, under the state's own local peer, and stores nothing. */
  lemma ViewOnFields(d: D.DaemonState, w: World)
    ensures var shown := RuntimeListeners(d, w);
            && shown.Keys == w.listeners.Keys
            && forall id :: id in w.listeners ==>
                 JudgedAs(d, LocalReason(d, d.localPeer), w.listeners[id], shown[id])
  {
    hide Judged, JudgedAs, LocalReason;
    forall id | id in w.listeners
      ensures JudgedAs(d, LocalReason(d, d.localPeer), w.listeners[id], Judged(d, LocalReason(d, d.localPeer), w.listeners[id]))
    {
      JudgedOnFields(d, LocalReason(d, d.localPeer), w.listeners[id]);
    }
  }

  /** What the report says about the runtime identity itself. */
  lemma ReportOnFields(d: D.DaemonState, runtimePeer: PeerId, sessions: SessionTally, listeners: ListenerTally)
    ensures var report := ReportOfReevaluation(d, runtimePeer, sessions, listeners);
            && report.sessions == sessions && report.listeners == listeners
            && (report.subjectMismatch <==> d.membership.subject != runtimePeer)
            && (report.localPolicyDenied <==>
                  d.membership.subject != runtimePeer || exists e :: e in d.denied && e.peer == d.localPeer)
            && (report.localReason.Some? <==> report.localPolicyDenied)
            && (report.localReason.Some? && !report.subjectMismatch ==>
                  D.DeniedPeer(d.localPeer, report.localReason.value) in d.denied)
  {
    LocalReasonExactly(d, runtimePeer);
    hide LocalReason;
  }
}
