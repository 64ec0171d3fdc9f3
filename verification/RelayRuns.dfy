/**
 What every run of relay service steps keeps: quotas, authorization, and that a session id which is
 present and not open never opens again. Attempt ids and drawn ids are arbitrary throughout.
 */
module RelayRuns {
  import opened Model
  import opened RelayWire

  datatype ServiceStep =
    | OpenStep(request: RelayOpenRequest, freshId: SessionId)
    | CloseStep(sessionId: SessionId)

  function Step(node: RelayNode, sessions: Sessions, step: ServiceStep): Sessions {
    match step
    case OpenStep(request, freshId) => OpenSession(node, sessions, request, freshId).0
    case CloseStep(id) => CloseSession(sessions, id).0
  }

  function Run(node: RelayNode, sessions: Sessions, steps: seq<ServiceStep>): Sessions
    decreases |steps|
  {
    if steps == [] then sessions else Run(node, Step(node, sessions, steps[0]), steps[1..])
  }

  // ---------------------------------------------------------------- one step

  ghost predicate WithinQuotas(node: RelayNode, sessions: Sessions) {
    forall source :: FindQuota(node.quotas, source).Some? ==>
      OpenCount(sessions, source) <= FindQuota(node.quotas, source).value.maxConcurrentSessions
  }

  ghost predicate AllAuthorized(node: RelayNode, sessions: Sessions) {
    forall id :: IsOpen(sessions, id) ==>
      && SupportsTrafficClass(node.trafficClasses, sessions[id].trafficClass)
      && AuthorizeDestination(node.destinations, sessions[id].destination, sessions[id].protocol).Ok?
  }

  ghost predicate FirstEntry(destinations: seq<RelayDestination>, i: nat, peer: PeerId) {
    && i < |destinations| && destinations[i].peer == peer
    && forall j :: 0 <= j < i ==> destinations[j].peer != peer
  }

  /** A destination is authorized by its first entry alone; a request that names no protocol passes any entry. */
  lemma {:induction false} AuthorizedExactly(destinations: seq<RelayDestination>, peer: PeerId, protocol: Option<ProtocolId>)
    ensures AuthorizeDestination(destinations, peer, protocol).Ok? <==>
            exists i: nat :: FirstEntry(destinations, i, peer)
                             && (protocol.Some? ==> protocol.value in destinations[i].protocols)
    ensures AuthorizeDestination(destinations, peer, protocol) == Err(DestinationUnauthorized) <==>
            forall i :: 0 <= i < |destinations| ==> destinations[i].peer != peer
  {
    if destinations != [] {
      if destinations[0].peer == peer {
        assert FirstEntry(destinations, 0, peer);
      } else {
        var rest := destinations[1..];
        AuthorizedExactly(rest, peer, protocol);
        assert forall i: nat :: i < |rest| ==> rest[i] == destinations[i + 1];
        forall i: nat | FirstEntry(rest, i, peer) ensures FirstEntry(destinations, i + 1, peer) {
          forall j | 0 <= j < i + 1 ensures destinations[j].peer != peer {
            if j > 0 {
              assert rest[j - 1] == destinations[j];
            }
          }
        }
        forall i: nat | FirstEntry(destinations, i, peer) ensures i > 0 && FirstEntry(rest, i - 1, peer) {
        }
      }
    }
  }

  /**
   Within the quotas a request is admitted exactly when its proof is valid, the class is supported, the
   destination authorized, its source below its quota, and the drawn id not in use.
   */
  lemma AdmittedExactly(node: RelayNode, sessions: Sessions, request: RelayOpenRequest, freshId: SessionId)
    requires ValidNode(node) && WithinQuotas(node, sessions)
    ensures Admission(node, sessions, request, freshId).Ok? <==>
            && request.proofValid
            && SupportsTrafficClass(node.trafficClasses, request.trafficClass)
            && AuthorizeDestination(node.destinations, request.destination, request.protocol).Ok?
            && (FindQuota(node.quotas, request.source).Some? ==>
                  OpenCount(sessions, request.source)
                  < FindQuota(node.quotas, request.source).value.maxConcurrentSessions)
            && freshId !in sessions
  {
    if FindQuota(node.quotas, request.source).Some? {
      QuotaIsSmall(node.quotas, request.source);
    }
    hide SupportsTrafficClass, AuthorizeDestination, FindQuota, OpenCount;
  }

  // ---------------------------------------------------------------- quotas by entry

  /** `i` is the first quota entry of the peer. */
  ghost predicate FirstQuota(quotas: seq<RelayQuota>, i: nat, peer: PeerId) {
    && i < |quotas| && quotas[i].peer == peer
    && forall j :: 0 <= j < i ==> quotas[j].peer != peer
  }

  /** The quota of a source is that of its first entry, wherever in the list it stands. */
  lemma {:induction false} QuotaIsFirstEntry(quotas: seq<RelayQuota>, peer: PeerId)
    ensures forall i: nat :: FirstQuota(quotas, i, peer) ==> FindQuota(quotas, peer) == Some(quotas[i])
    ensures FindQuota(quotas, peer).Some? ==> exists i: nat :: FirstQuota(quotas, i, peer)
  {
    if quotas != [] {
      if quotas[0].peer == peer {
        assert FirstQuota(quotas, 0, peer);
      } else {
        var rest := quotas[1..];
        QuotaIsFirstEntry(rest, peer);
        forall i: nat | FirstQuota(rest, i, peer) ensures FirstQuota(quotas, i + 1, peer) {
          forall j | 0 <= j < i + 1 ensures quotas[j].peer != peer {
            if j > 0 {
              assert rest[j - 1] == quotas[j];
            }
          }
        }
        forall i: nat | FirstQuota(quotas, i, peer) ensures i > 0 && FirstQuota(rest, i - 1, peer) {
        }
      }
    }
  }

  /** Each source with an entry has at most as many open sessions as its first entry says. */
  ghost predicate WithinEntries(node: RelayNode, sessions: Sessions) {
    forall i: nat, source :: FirstQuota(node.quotas, i, source) ==>
      OpenCount(sessions, source) <= node.quotas[i].maxConcurrentSessions
  }

  lemma EntriesAreQuotas(node: RelayNode, sessions: Sessions)
    ensures WithinEntries(node, sessions) <==> WithinQuotas(node, sessions)
  {
    hide FindQuota, OpenCount;
    forall source
      ensures forall i: nat :: FirstQuota(node.quotas, i, source) ==> FindQuota(node.quotas, source) == Some(node.quotas[i])
      ensures FindQuota(node.quotas, source).Some? ==> exists i: nat :: FirstQuota(node.quotas, i, source)
    {
      QuotaIsFirstEntry(node.quotas, source);
    }
  }

  /** Accepting a request opens one id and can only take away the record at the attempt id. */
  lemma AcceptedTable(node: RelayNode, sessions: Sessions, request: RelayOpenRequest, freshId: SessionId,
                      source: PeerId)
    requires Admission(node, sessions, request, freshId).Ok?
    ensures var after := OpenSession(node, sessions, request, freshId).0;
            OpenIds(after, source) ==
              (OpenIds(sessions, source) - {request.attemptId})
              + (if source == request.source then {freshId} else {})
  {
    var accepted := AcceptedReply(request, freshId);
    var pending := sessions[request.attemptId := PendingRecord(request)];
    assert OpenSession(node, sessions, request, freshId).0 == pending[freshId := OpenRecord(accepted)];
  }

  lemma CountAtMost<T>(a: set<T>, b: set<T>, x: T)
    requires a <= b + {x}
    ensures |a| <= |b| + 1
  {
    SubsetSize(a - {x}, b);
  }

  lemma {:induction false} SubsetSize<T>(a: set<T>, b: set<T>)
    requires a <= b
    ensures |a| <= |b|
  {
    if a != {} {
      var x :| x in a;
      SubsetSize(a - {x}, b - {x});
    }
  }

  lemma QuotaIsSmall(quotas: seq<RelayQuota>, source: PeerId)
    requires forall q :: q in quotas ==> q.maxConcurrentSessions < U32_LIMIT
    requires FindQuota(quotas, source).Some?
    ensures FindQuota(quotas, source).value.maxConcurrentSessions < U32_LIMIT
  {
    if quotas[0].peer != source {
      QuotaIsSmall(quotas[1..], source);
    }
  }

  /** An admitted source is below its quota: the cast of a count within the quota loses nothing. */
  lemma AdmittedIsBelow(node: RelayNode, sessions: Sessions, request: RelayOpenRequest, freshId: SessionId)
    requires ValidNode(node) && FindQuota(node.quotas, request.source).Some?
    requires Admission(node, sessions, request, freshId).Ok?
    requires OpenCount(sessions, request.source) <= FindQuota(node.quotas, request.source).value.maxConcurrentSessions
    ensures OpenCount(sessions, request.source) < FindQuota(node.quotas, request.source).value.maxConcurrentSessions
  {
    assert !OverQuota(node, sessions, request.source);
    QuotaIsSmall(node.quotas, request.source);
    hide OpenCount, FindQuota, SupportsTrafficClass, AuthorizeDestination, Admission;
  }

  lemma OpenKeepsQuota(node: RelayNode, sessions: Sessions, request: RelayOpenRequest, freshId: SessionId,
                       source: PeerId)
    requires ValidNode(node) && FindQuota(node.quotas, source).Some?
    requires Admission(node, sessions, request, freshId).Ok?
    requires OpenCount(sessions, source) <= FindQuota(node.quotas, source).value.maxConcurrentSessions
    ensures OpenCount(OpenSession(node, sessions, request, freshId).0, source)
            <= FindQuota(node.quotas, source).value.maxConcurrentSessions
  {
    AcceptedTable(node, sessions, request, freshId, source);
    if source == request.source {
      AdmittedIsBelow(node, sessions, request, freshId);
    }
    hide OpenSession, Admission, OpenIds, FindQuota;
    var after := OpenSession(node, sessions, request, freshId).0;
    if source == request.source {
      CountAtMost(OpenIds(after, source), OpenIds(sessions, source), freshId);
    } else {
      SubsetSize(OpenIds(after, source), OpenIds(sessions, source));
    }
  }

  lemma CloseKeepsQuota(sessions: Sessions, id: SessionId, source: PeerId)
    ensures OpenCount(CloseSession(sessions, id).0, source) <= OpenCount(sessions, source)
  {
    SubsetSize(OpenIds(CloseSession(sessions, id).0, source), OpenIds(sessions, source));
  }

  lemma StepKeepsQuotas(node: RelayNode, sessions: Sessions, step: ServiceStep)
    requires ValidNode(node) && WithinQuotas(node, sessions)
    ensures WithinQuotas(node, Step(node, sessions, step))
  {
    hide Admission, OpenCount, CloseSession;
    forall source | FindQuota(node.quotas, source).Some?
      ensures OpenCount(Step(node, sessions, step), source)
              <= FindQuota(node.quotas, source).value.maxConcurrentSessions
    {
      match step
      case OpenStep(request, freshId) =>
        if Admission(node, sessions, request, freshId).Ok? {
          OpenKeepsQuota(node, sessions, request, freshId, source);
        }
      case CloseStep(id) =>
        CloseKeepsQuota(sessions, id, source);
    }
  }

  lemma StepKeepsAuthorization(node: RelayNode, sessions: Sessions, step: ServiceStep)
    requires AllAuthorized(node, sessions)
    ensures AllAuthorized(node, Step(node, sessions, step))
  {
    var after := Step(node, sessions, step);
    forall id | IsOpen(after, id)
      ensures SupportsTrafficClass(node.trafficClasses, after[id].trafficClass)
      ensures AuthorizeDestination(node.destinations, after[id].destination, after[id].protocol).Ok?
    {
      assert IsOpen(sessions, id) ==> AllAuthorized(node, sessions);
      if step.OpenStep? && Admission(node, sessions, step.request, step.freshId).Ok? && id == step.freshId {
        assert after[id] == OpenRecord(AcceptedReply(step.request, step.freshId));
      } else {
        assert IsOpen(sessions, id) && after[id] == sessions[id];
      }
    }
  }

  predicate Retired(sessions: Sessions, id: SessionId) {
    id in sessions && sessions[id].status != Open
  }

  lemma StepKeepsRetired(node: RelayNode, sessions: Sessions, step: ServiceStep, id: SessionId)
    requires Retired(sessions, id)
    ensures Retired(Step(node, sessions, step), id)
  {
  }

  // ---------------------------------------------------------------- main results

  /**
   Quota safety: starting from an empty table, after any steps, each source with a quota holds at
   most its first matching quota's number of open sessions, so the 32-bit cast never truncates.
   */
  lemma QuotaSafety(node: RelayNode, steps: seq<ServiceStep>, source: PeerId)
    requires ValidNode(node) && FindQuota(node.quotas, source).Some?
    ensures var sessions := Run(node, map[], steps);
            && OpenCount(sessions, source) <= FindQuota(node.quotas, source).value.maxConcurrentSessions
            && OpenCount(sessions, source) % U32_LIMIT == OpenCount(sessions, source)
  {
    QuotaIsSmall(node.quotas, source);
    assert forall s :: OpenIds(map[], s) == {};
    assert WithinQuotas(node, map[]);
    RunKeepsQuotas(node, map[], steps);
  }

  lemma {:induction false} RunKeepsQuotas(node: RelayNode, sessions: Sessions, steps: seq<ServiceStep>)
    requires ValidNode(node) && WithinQuotas(node, sessions)
    ensures WithinQuotas(node, Run(node, sessions, steps))
    decreases |steps|
  {
    if steps != [] {
      StepKeepsQuotas(node, sessions, steps[0]);
      RunKeepsQuotas(node, Step(node, sessions, steps[0]), steps[1..]);
    }
  }

  /** Over every run from an empty table, by entry: whichever place it has in the list, the first entry of a source binds. */
  lemma QuotaSafetyByEntry(node: RelayNode, steps: seq<ServiceStep>, i: nat)
    requires ValidNode(node) && i < |node.quotas| && FirstQuota(node.quotas, i, node.quotas[i].peer)
    ensures OpenCount(Run(node, map[], steps), node.quotas[i].peer) <= node.quotas[i].maxConcurrentSessions
  {
    QuotaIsFirstEntry(node.quotas, node.quotas[i].peer);
    hide FindQuota, FirstQuota, OpenCount, Run;
    QuotaSafety(node, steps, node.quotas[i].peer);
  }

  /** The checks that come before the quota. */
  predicate PassesFirstChecks(node: RelayNode, request: RelayOpenRequest) {
    && request.proofValid
    && SupportsTrafficClass(node.trafficClasses, request.trafficClass)
    && AuthorizeDestination(node.destinations, request.destination, request.protocol).Ok?
  }

  /** Capacity is the reason exactly when the earlier checks pass and the source's first entry is used up. */
  lemma CapacityExactly(node: RelayNode, sessions: Sessions, request: RelayOpenRequest, freshId: SessionId)
    requires ValidNode(node) && WithinEntries(node, sessions)
    ensures OpenSession(node, sessions, request, freshId) == (sessions, Err(CapacityExceeded)) <==>
            && PassesFirstChecks(node, request)
            && exists i: nat :: FirstQuota(node.quotas, i, request.source)
                                && OpenCount(sessions, request.source) == node.quotas[i].maxConcurrentSessions
  {
    EntriesAreQuotas(node, sessions);
    QuotaIsFirstEntry(node.quotas, request.source);
    if FindQuota(node.quotas, request.source).Some? {
      QuotaIsSmall(node.quotas, request.source);
    }
    CapacityIsNotAuthorization(node.destinations, request.destination, request.protocol);
    hide FindQuota, FirstQuota, OpenCount, SupportsTrafficClass, AuthorizeDestination, WithinEntries, AcceptedReply;
  }

  lemma CapacityIsNotAuthorization(destinations: seq<RelayDestination>, peer: PeerId, protocol: Option<ProtocolId>)
    ensures AuthorizeDestination(destinations, peer, protocol) != Err(CapacityExceeded)
  {
    hide FindDestination;
  }

  /**
   What an accepted open leaves: under the drawn id an open record of exactly what was requested, under the
   attempt id a pending one, and everything else as it was.
   */
  lemma OpenRecordsRequest(node: RelayNode, sessions: Sessions, request: RelayOpenRequest, freshId: SessionId)
    requires OpenSession(node, sessions, request, freshId).1.Ok?
    ensures var (after, outcome) := OpenSession(node, sessions, request, freshId);
            && outcome.value.sessionId == freshId && outcome.value.attemptId == request.attemptId
            && after.Keys == sessions.Keys + {freshId, request.attemptId}
            && (forall id :: id in sessions && id != freshId && id != request.attemptId ==> after[id] == sessions[id])
            && (forall id :: id in {freshId, request.attemptId} ==>
                  && after[id].sessionId == id && after[id].source == request.source
                  && after[id].destination == request.destination && after[id].protocol == request.protocol
                  && after[id].trafficClass == request.trafficClass
                  && after[id].status == if id == freshId then Open else Pending)
  {
    hide Admission;
  }

  /** Every open session has a supported class and an authorized destination and protocol. */
  lemma {:induction false} RunKeepsAuthorization(node: RelayNode, sessions: Sessions, steps: seq<ServiceStep>)
    requires AllAuthorized(node, sessions)
    ensures AllAuthorized(node, Run(node, sessions, steps))
    decreases |steps|
  {
    if steps != [] {
      StepKeepsAuthorization(node, sessions, steps[0]);
      RunKeepsAuthorization(node, Step(node, sessions, steps[0]), steps[1..]);
    }
  }

  /** A retired id never opens again, and Data and Health frames on it are rejected forever. */
  lemma {:induction false} NeverReopened(node: RelayNode, sessions: Sessions, steps: seq<ServiceStep>,
                                         id: SessionId)
    requires Retired(sessions, id)
    ensures var later := Run(node, sessions, steps);
            && Retired(later, id)
            && ApplyFrame(later, DataFrame(id)) == (later, Err(Unauthorized))
            && ApplyFrame(later, HealthFrame(id)) == (later, Err(Unauthorized))
    decreases |steps|
  {
    if steps != [] {
      StepKeepsRetired(node, sessions, steps[0], id);
      NeverReopened(node, Step(node, sessions, steps[0]), steps[1..], id);
    }
  }

  /** The service never forgets an id, so closing twice succeeds twice and changes nothing more. */
  lemma {:induction false} CloseStaysIdempotent(node: RelayNode, sessions: Sessions,
                                                steps: seq<ServiceStep>, id: SessionId)
    requires id in sessions
    ensures var closed := CloseSession(Run(node, sessions, steps), id);
            && closed.1 == Ok(()) && id in closed.0 && closed.0[id].status == Closed
            && CloseSession(closed.0, id) == closed
    decreases |steps|
  {
    if steps != [] {
      CloseStaysIdempotent(node, Step(node, sessions, steps[0]), steps[1..], id);
    } else {
      var closed := CloseSession(sessions, id).0;
      assert closed[id := closed[id]] == closed;
    }
  }

  /**
   Opening a session leaves every other record as it was exactly when the caller's attempt id names
   no other record, or one that already is the pending record of this very request.
   */
  lemma OpeningDisturbsNothingElse(node: RelayNode, sessions: Sessions, request: RelayOpenRequest,
                                   freshId: SessionId)
    requires Admission(node, sessions, request, freshId).Ok?
    ensures var after := OpenSession(node, sessions, request, freshId).0;
            (forall id :: id in sessions ==> id in after && after[id] == sessions[id])
            <==>
            (request.attemptId !in sessions || sessions[request.attemptId] == PendingRecord(request))
  {
    var after := OpenSession(node, sessions, request, freshId).0;
    if request.attemptId in sessions {
      assert after[request.attemptId] == PendingRecord(request);
    }
  }
}
