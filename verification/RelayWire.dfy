/**
 The relay service of crates/relay: the session table, the admission rules and the frames, first as
 functions on values, then as the classes that update the table in place.
 */
module RelayWire {
  import opened Model

  datatype RelaySessionStatus = Pending | Open | Closed

  datatype RelaySession = RelaySession(
    sessionId: SessionId, source: PeerId, destination: PeerId, protocol: Option<ProtocolId>,
    trafficClass: TrafficClass, status: RelaySessionStatus)

  datatype RelayQuota = RelayQuota(peer: PeerId, maxConcurrentSessions: nat)

  datatype RelayDestination = RelayDestination(peer: PeerId, protocols: seq<ProtocolId>)

  datatype RelayNode = RelayNode(
    trafficClasses: seq<string>, quotas: seq<RelayQuota>, destinations: seq<RelayDestination>)

  /** `proofValid` is the outcome of checking the source key binding and the signed credential. */
  datatype RelayOpenRequest = RelayOpenRequest(
    attemptId: SessionId, source: PeerId, destination: PeerId, protocol: Option<ProtocolId>,
    trafficClass: TrafficClass, proofValid: bool)

  datatype RelaySessionAccepted = RelaySessionAccepted(
    attemptId: SessionId, sessionId: SessionId, source: PeerId, destination: PeerId,
    protocol: Option<ProtocolId>, trafficClass: TrafficClass)

  datatype RelayRejectCode =
    | UnsupportedTrafficClass | CapacityExceeded | SessionExists | InvalidIdentityProof
    | DestinationUnauthorized | DestinationProtocolRejected

  datatype RelayError = Unauthorized | SessionNotFound

  datatype RelayFrame =
    | OpenSessionFrame(request: RelayOpenRequest)
    | SessionAcceptedFrame(accepted: RelaySessionAccepted)
    | SessionRejectedFrame(attemptId: SessionId)
    | DataFrame(sessionId: SessionId)
    | HealthFrame(sessionId: SessionId)
    | CloseFrame(sessionId: SessionId)

  type Sessions = map<SessionId, RelaySession>

  /** The quota field is a 32-bit unsigned integer. */
  predicate ValidNode(node: RelayNode) {
    forall q :: q in node.quotas ==> q.maxConcurrentSessions < U32_LIMIT
  }

  // ---------------------------------------------------------------- frames

  function PendingRecord(request: RelayOpenRequest): RelaySession {
    RelaySession(request.attemptId, request.source, request.destination, request.protocol,
                 request.trafficClass, Pending)
  }

  function OpenRecord(accepted: RelaySessionAccepted): RelaySession {
    RelaySession(accepted.sessionId, accepted.source, accepted.destination, accepted.protocol,
                 accepted.trafficClass, Open)
  }

  predicate IsOpen(sessions: Sessions, id: SessionId) {
    id in sessions && sessions[id].status == Open
  }

  function ApplyFrame(sessions: Sessions, frame: RelayFrame): (Sessions, Result<(), RelayError>) {
    match frame
    case OpenSessionFrame(request) =>
      (sessions[request.attemptId := PendingRecord(request)], Ok(()))
    case SessionAcceptedFrame(accepted) =>
      (sessions[accepted.sessionId := OpenRecord(accepted)], Ok(()))
    case SessionRejectedFrame(attemptId) =>
      (sessions - {attemptId}, Err(Unauthorized))
    case DataFrame(id) =>
      (sessions, if IsOpen(sessions, id) then Ok(()) else Err(Unauthorized))
    case HealthFrame(id) =>
      (sessions, if IsOpen(sessions, id) then Ok(()) else Err(Unauthorized))
    case CloseFrame(id) =>
      (if id in sessions then sessions[id := sessions[id].(status := Closed)] else sessions, Ok(()))
  }

  // ---------------------------------------------------------------- admission

  predicate SupportsTrafficClass(values: seq<string>, class_: TrafficClass) {
    exists value :: value in values && AcceptsClass(value, class_)
  }

  predicate AcceptsClass(value: string, class_: TrafficClass) {
    match class_
    case Control => value == "NetworkControl"
    case Interactive => value == "InteractiveRpc"
    case Bulk => value == "BulkTransfer"
    case Background => value == "Background"
  }

  function FindDestination(destinations: seq<RelayDestination>, peer: PeerId): Option<RelayDestination> {
    if destinations == [] then None
    else if destinations[0].peer == peer then Some(destinations[0])
    else FindDestination(destinations[1..], peer)
  }

  function AuthorizeDestination(
    destinations: seq<RelayDestination>, destination: PeerId, protocol: Option<ProtocolId>
  ): Result<(), RelayRejectCode> {
    match FindDestination(destinations, destination)
    case None => Err(DestinationUnauthorized)
    case Some(entry) =>
      if protocol.Some? && protocol.value !in entry.protocols then Err(DestinationProtocolRejected)
      else Ok(())
  }

  function FindQuota(quotas: seq<RelayQuota>, peer: PeerId): Option<RelayQuota> {
    if quotas == [] then None
    else if quotas[0].peer == peer then Some(quotas[0])
    else FindQuota(quotas[1..], peer)
  }

  function OpenIds(sessions: Sessions, source: PeerId): set<SessionId> {
    set id | id in sessions && sessions[id].source == source && sessions[id].status == Open
  }

  function OpenCount(sessions: Sessions, source: PeerId): nat {
    |OpenIds(sessions, source)|
  }

  /** The count is cast to 32 bits before it is compared with the quota. */
  predicate OverQuota(node: RelayNode, sessions: Sessions, source: PeerId) {
    match FindQuota(node.quotas, source)
    case None => false
    case Some(quota) => OpenCount(sessions, source) % U32_LIMIT >= quota.maxConcurrentSessions
  }

  /** The admission verdict, in the order in which the service checks. */
  function Admission(
    node: RelayNode, sessions: Sessions, request: RelayOpenRequest, freshId: SessionId
  ): Result<(), RelayRejectCode> {
    if !request.proofValid then Err(InvalidIdentityProof)
    else if !SupportsTrafficClass(node.trafficClasses, request.trafficClass) then
      Err(UnsupportedTrafficClass)
    else if AuthorizeDestination(node.destinations, request.destination, request.protocol).Err? then
      AuthorizeDestination(node.destinations, request.destination, request.protocol)
    else if OverQuota(node, sessions, request.source) then Err(CapacityExceeded)
    else if freshId in sessions then Err(SessionExists)
    else Ok(())
  }

  function AcceptedReply(request: RelayOpenRequest, freshId: SessionId): RelaySessionAccepted {
    RelaySessionAccepted(request.attemptId, freshId, request.source, request.destination,
                         request.protocol, request.trafficClass)
  }

  /** `freshId` is the random id that the service draws for the session. */
  function OpenSession(
    node: RelayNode, sessions: Sessions, request: RelayOpenRequest, freshId: SessionId
  ): (Sessions, Result<RelaySessionAccepted, RelayRejectCode>) {
    match Admission(node, sessions, request, freshId)
    case Err(code) => (sessions, Err(code))
    case Ok(_) =>
      var accepted := AcceptedReply(request, freshId);
      var pending := ApplyFrame(sessions, OpenSessionFrame(request)).0;
      (ApplyFrame(pending, SessionAcceptedFrame(accepted)).0, Ok(accepted))
  }

  function CloseSession(sessions: Sessions, id: SessionId): (Sessions, Result<(), RelayError>) {
    if id !in sessions then (sessions, Err(SessionNotFound))
    else ApplyFrame(sessions, CloseFrame(id))
  }

  // ---------------------------------------------------------------- classes

  /** The session table, changed one frame at a time. */
  class RelayRuntime {
    var sessions: Sessions

    constructor ()
      ensures sessions == map[]
    {
      sessions := map[];
    }

    method Apply(frame: RelayFrame) returns (outcome: Result<(), RelayError>)
      modifies this
      ensures (sessions, outcome) == ApplyFrame(old(sessions), frame)
    {
      match frame {
        case OpenSessionFrame(request) =>
          sessions := sessions[request.attemptId := RelaySession(
            request.attemptId, request.source, request.destination, request.protocol,
            request.trafficClass, Pending)];
          outcome := Ok(());
        case SessionAcceptedFrame(accepted) =>
          sessions := sessions[accepted.sessionId := RelaySession(
            accepted.sessionId, accepted.source, accepted.destination, accepted.protocol,
            accepted.trafficClass, Open)];
          outcome := Ok(());
        case SessionRejectedFrame(attemptId) =>
          sessions := sessions - {attemptId};
          outcome := Err(Unauthorized);
        case DataFrame(id) =>
          outcome := if id in sessions && sessions[id].status == Open then Ok(()) else Err(Unauthorized);
        case HealthFrame(id) =>
          outcome := if id in sessions && sessions[id].status == Open then Ok(()) else Err(Unauthorized);
        case CloseFrame(id) =>
          if id in sessions {
            var session := sessions[id];
            sessions := sessions[id := session.(status := Closed)];
          }
          outcome := Ok(());
      }
    }

    /** Counts by walking the values of the table. */
    method CountOpen(source: PeerId) returns (count: nat)
      ensures count == OpenCount(sessions, source)
    {
      var pending := sessions.Keys;
      var found: set<SessionId> := {};
      count := 0;
      while pending != {}
        invariant pending <= sessions.Keys
        invariant found == OpenIds(sessions, source) - pending
        invariant count == |found|
        decreases pending
      {
        var id :| id in pending;
        pending := pending - {id};
        if sessions[id].source == source && sessions[id].status == Open {
          found := found + {id};
          count := count + 1;
        }
      }
      assert found == OpenIds(sessions, source);
    }
  }

  class RelayService {
    const node: RelayNode
    const runtime: RelayRuntime

    ghost function Table(): Sessions
      reads runtime
    {
      runtime.sessions
    }

    constructor (node: RelayNode)
      ensures this.node == node && fresh(runtime) && Table() == map[]
    {
      this.node := node;
      runtime := new RelayRuntime();
    }

    method Open(request: RelayOpenRequest, freshId: SessionId)
      returns (outcome: Result<RelaySessionAccepted, RelayRejectCode>)
      modifies runtime
      ensures (Table(), outcome) == OpenSession(node, old(Table()), request, freshId)
    {
      if !request.proofValid {
        return Err(InvalidIdentityProof);
      }
      if !SupportsTrafficClass(node.trafficClasses, request.trafficClass) {
        return Err(UnsupportedTrafficClass);
      }
      var authorization := AuthorizeDestination(node.destinations, request.destination, request.protocol);
      if authorization.Err? {
        return Err(authorization.error);
      }
      var quota := FindQuota(node.quotas, request.source);
      if quota.Some? {
        var active := runtime.CountOpen(request.source);
        if active % U32_LIMIT >= quota.value.maxConcurrentSessions {
          return Err(CapacityExceeded);
        }
      }
      if freshId in runtime.sessions {
        return Err(SessionExists);
      }
      var _ := runtime.Apply(OpenSessionFrame(request));
      var accepted := RelaySessionAccepted(request.attemptId, freshId, request.source,
                                           request.destination, request.protocol, request.trafficClass);
      var _ := runtime.Apply(SessionAcceptedFrame(accepted));
      outcome := Ok(accepted);
    }

    method Close(id: SessionId) returns (outcome: Result<(), RelayError>)
      modifies runtime
      ensures (Table(), outcome) == CloseSession(old(Table()), id)
    {
      if id !in runtime.sessions {
        return Err(SessionNotFound);
      }
      outcome := runtime.Apply(CloseFrame(id));
    }
  }
}
