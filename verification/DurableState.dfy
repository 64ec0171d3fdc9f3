/**
 The durable daemon state of crates/fabric: policy decisions, routes, the cached fields, and the steps
 that change the state.
 */
module DurableState {
  import opened Model
  import opened Policy
  import opened Routing
  import opened SnapshotMerge
  import T = Transport

  datatype DeniedPeer = DeniedPeer(peer: PeerId, reason: string)

  datatype RelayAnnouncement = RelayAnnouncement(
    peer: PeerId, advertisedEndpoints: seq<string>, controlEndpoint: Endpoint, maxBandwidthBps: nat,
    supportsDatagrams: bool, supportsPathMigration: bool, trafficClasses: seq<string>)

  datatype RelayMap = RelayMap(version: nat, generatedAt: nat, relays: seq<RelayAnnouncement>)

  datatype PeerSource = FromBootstrap | FromRelayMap | FromElsewhere

  datatype PeerInspection = PeerInspection(
    peer: PeerId, addresses: seq<string>, source: PeerSource, lastSeen: Option<nat>)

  datatype ProbeStatus = ProbePending | ProbePassed | ProbeFailed

  datatype ProbeObservation = ProbeObservation(vantage: string, status: ProbeStatus, latencyMs: Option<nat>, detail: string)

  datatype NatType = UnknownNat | RestrictedCone | UdpBlocked | OtherNat

  datatype Netcheck = Netcheck(
    natType: NatType, udpReachable: bool, ipv6Reachable: bool, publicUdpAddr: Option<string>,
    portMapped: bool, probes: seq<ProbeObservation>)

  datatype DaemonState = DaemonState(
    network: string, localPeer: PeerId, membership: MembershipCertificate, grants: seq<CapabilityGrant>,
    revocations: seq<RevocationRecord>, denied: seq<DeniedPeer>, bootstrap: seq<BootstrapHint>,
    relayMap: Option<RelayMap>, peers: seq<PeerInspection>, netcheck: Netcheck,
    pathCandidates: seq<PathCandidate>)

  datatype DaemonError =
    | NoRouteTo(peer: PeerId) | PeerNotFound(peer: PeerId) | NetworkDiffers | MissingMembership
    | ControlFailed(control: ControlError) | PolicyRejects(reason: string) | TransportFailed(transport: T.TransportError)
    | InvalidSession

  // ---------------------------------------------------------------- denied peers and policy

  function DeniedEntry(membership: MembershipCertificate, r: RevocationRecord): Option<DeniedPeer> {
    match r.target
    case PeerTarget(peer) =>
      Some(DeniedPeer(peer, "peer revoked: " + r.reason + " seq=" + NatText(r.sequence) + " issuer=" + r.issuer))
    case MembershipTarget(subject, issuedAt) =>
      if subject == membership.subject && issuedAt == membership.issuedAt then
        Some(DeniedPeer(subject, "membership revoked: " + r.reason + " seq=" + NatText(r.sequence) + " issuer=" + r.issuer))
      else None
    case _ => None
  }

  function DeniedPeers(membership: MembershipCertificate, revocations: seq<RevocationRecord>): seq<DeniedPeer> {
    if revocations == [] then []
    else
      (match DeniedEntry(membership, revocations[0]) case None => [] case Some(entry) => [entry])
      + DeniedPeers(membership, revocations[1..])
  }

  function FindDenied(denied: seq<DeniedPeer>, peer: PeerId): Option<string> {
    if denied == [] then None
    else if denied[0].peer == peer then Some(denied[0].reason)
    else FindDenied(denied[1..], peer)
  }

  function DenyReason(state: DaemonState, peer: PeerId): Option<string> {
    FindDenied(state.denied, peer)
  }

  predicate GrantRevoked(revocations: seq<RevocationRecord>, grant: CapabilityGrant) {
    exists r :: r in revocations && r.target == GrantTarget(grant.subject, grant.sequence)
  }

  predicate ActiveFor(state: DaemonState, peer: PeerId, grant: CapabilityGrant) {
    grant.subject == peer && !GrantRevoked(state.revocations, grant)
  }

  function GrantsForPeer(state: DaemonState, peer: PeerId): seq<CapabilityGrant> {
    Filter(state.grants, (g: CapabilityGrant) => ActiveFor(state, peer, g))
  }

  function ProtocolCapability(protocol: ProtocolId): string {
    if protocol == "/quip/records/1" then "records.publish"
    else if protocol == "/quip/control/1" then "control.access"
    else "protocol:" + protocol
  }

  function LocalRule(state: DaemonState, protocol: ProtocolId): PolicyRule {
    PolicyRule(Allow, Some(state.network), Some(protocol), Some(state.localPeer), Some(ProtocolCapability(protocol)))
  }

  function ExplainLocalPolicy(state: DaemonState, protocol: ProtocolId): Decision {
    var grants := GrantsForPeer(state, state.localPeer);
    var decision := Evaluate([LocalRule(state, protocol)], state.network, state.localPeer, protocol, grants);
    if decision.allowed then
      Decision(true, decision.reason + " using " + NatText(|grants|) + " active grant(s)")
    else if grants == [] then Decision(false, "no active capability grants for " + protocol)
    else decision
  }

  function ExplainPolicy(state: DaemonState, peer: PeerId, protocol: ProtocolId): Decision {
    match DenyReason(state, peer)
    case Some(reason) => Decision(false, reason)
    case None => ExplainLocalPolicy(state, protocol)
  }

  // ---------------------------------------------------------------- addresses

  predicate IsDirectQuic(address: string) {
    StartsWith(address, "quic://") || StartsWith(address, "udp://")
  }

  predicate IsIpv6(address: string) {
    Contains(address, "://[") || CountChar(address, ':') > 2
  }

  predicate MatchesPathKind(address: string, kind: PathKind) {
    match kind
    case DirectIpv6 => IsDirectQuic(address) && IsIpv6(address)
    case DirectUdp => IsDirectQuic(address) && !IsIpv6(address)
    case Relay => IsDirectQuic(address)
    case Loopback => Contains(address, "127.0.0.1") || Contains(address, "://[::1]")
    case Lan => Contains(address, "192.168.") || Contains(address, "10.") || Contains(address, "172.16.")
  }

  /** The addresses of the kind, or all of them when there is none. */
  function RouteEndpoints(addresses: seq<string>, kind: PathKind): seq<string> {
    var matching := Filter(addresses, (a: string) => MatchesPathKind(a, kind));
    if matching == [] then addresses else matching
  }

  function DirectKind(addresses: seq<string>): PathKind {
    if exists a :: a in addresses && IsIpv6(a) then DirectIpv6 else DirectUdp
  }

  // ---------------------------------------------------------------- path candidates

  function BestProbeLatency(probes: seq<ProbeObservation>): Option<nat> {
    if probes == [] then None
    else
      var rest := BestProbeLatency(probes[1..]);
      if probes[0].status == ProbePassed && probes[0].latencyMs.Some? then
        var here := probes[0].latencyMs.value;
        if rest.None? || here <= rest.value then Some(here) else rest
      else rest
  }

  function SatU32(n: nat): nat {
    Min(n, U32_LIMIT - 1)
  }

  function BootstrapCandidate(hint: BootstrapHint, netcheck: Netcheck): PathCandidate
    requires hint.peer.Some?
  {
    PathCandidate(
      hint.peer.value, DirectKind(hint.addresses), None, BootstrapPath, [Control, Interactive, Bulk, Background],
      (match BestProbeLatency(netcheck.probes) case None => 40 case Some(ms) => ms),
      if netcheck.udpReachable then 3 else 12, if netcheck.udpReachable then 0.2 else 1.5,
      if netcheck.udpReachable then 600 else 120, 0)
  }

  predicate DirectlyReachable(hint: BootstrapHint) {
    hint.peer.Some? && exists a :: a in hint.addresses && IsDirectQuic(a)
  }

  function BootstrapCandidates(hints: seq<BootstrapHint>, netcheck: Netcheck): seq<PathCandidate> {
    if hints == [] || (!netcheck.udpReachable && !netcheck.ipv6Reachable) then []
    else
      (if DirectlyReachable(hints[0]) then [BootstrapCandidate(hints[0], netcheck)] else [])
      + BootstrapCandidates(hints[1..], netcheck)
  }

  function ClassOfName(name: string): Option<TrafficClass> {
    if name == "NetworkControl" then Some(Control)
    else if name == "InteractiveRpc" then Some(Interactive)
    else if name == "Background" then Some(Background)
    else if name == "Bulk" then Some(Bulk)
    else None
  }

  function NamedClasses(names: seq<string>): seq<TrafficClass> {
    if names == [] then []
    else
      (match ClassOfName(names[0]) case None => [] case Some(class_) => [class_]) + NamedClasses(names[1..])
  }

  function RelayTrafficClasses(names: seq<string>): seq<TrafficClass> {
    if NamedClasses(names) == [] then [Control, Interactive] else NamedClasses(names)
  }

  function DirectRelayRtt(relay: RelayAnnouncement, netcheck: Netcheck): nat {
    var base := match BestProbeLatency(netcheck.probes)
                case None => if netcheck.udpReachable then 30 else 70
                case Some(ms) => ms;
    SatU32(base + if DirectKind(relay.advertisedEndpoints) == DirectIpv6 && netcheck.ipv6Reachable then 5 else 15)
  }

  function RelayThroughput(relay: RelayAnnouncement): nat {
    var mbps := relay.maxBandwidthBps / 1_000_000;
    if mbps < 100 then 100 else if mbps > 5_000 then 5_000 else mbps
  }

  function DirectRelayCandidate(relay: RelayAnnouncement, netcheck: Netcheck): PathCandidate {
    PathCandidate(
      relay.peer, DirectKind(relay.advertisedEndpoints), None, AuthorityPath,
      RelayTrafficClasses(relay.trafficClasses), DirectRelayRtt(relay, netcheck),
      if netcheck.udpReachable then 4 else 14, if netcheck.udpReachable then 0.3 else 1.8,
      RelayThroughput(relay), 0)
  }

  function FallbackCandidate(peer: PeerId, relay: RelayAnnouncement, netcheck: Netcheck): PathCandidate {
    PathCandidate(
      peer, Relay, Some(relay.peer), AuthorityPath, RelayTrafficClasses(relay.trafficClasses),
      SatU32(SatU32(DirectRelayRtt(relay, netcheck) * 2) + 20),
      (if netcheck.udpReachable then 4 else 14) + 5, (if netcheck.udpReachable then 0.3 else 1.8) + 0.4,
      if RelayThroughput(relay) / 2 > 80 then RelayThroughput(relay) / 2 else 80, 25)
  }

  function DirectRelayCandidates(relays: seq<RelayAnnouncement>, netcheck: Netcheck): seq<PathCandidate> {
    seq(|relays|, i requires 0 <= i < |relays| => DirectRelayCandidate(relays[i], netcheck))
  }

  function FallbackCandidates(peer: PeerId, relays: seq<RelayAnnouncement>, netcheck: Netcheck): seq<PathCandidate> {
    seq(|relays|, i requires 0 <= i < |relays| => FallbackCandidate(peer, relays[i], netcheck))
  }

  predicate IsRelayPeer(relays: seq<RelayAnnouncement>, peer: PeerId) {
    exists r :: r in relays && r.peer == peer
  }

  function AllFallbacks(peers: seq<PeerInspection>, relays: seq<RelayAnnouncement>, netcheck: Netcheck): seq<PathCandidate> {
    if peers == [] then []
    else
      (if IsRelayPeer(relays, peers[0].peer) then [] else FallbackCandidates(peers[0].peer, relays, netcheck))
      + AllFallbacks(peers[1..], relays, netcheck)
  }

  function RelayCandidates(relayMap: Option<RelayMap>, peers: seq<PeerInspection>, netcheck: Netcheck): seq<PathCandidate> {
    match relayMap
    case None => []
    case Some(m) => DirectRelayCandidates(m.relays, netcheck) + AllFallbacks(peers, m.relays, netcheck)
  }

  datatype CandidateKey = CandidateKey(peer: PeerId, pathKind: PathKind, relayPeer: Option<PeerId>, source: PathSource)

  function KeyOfCandidate(c: PathCandidate): CandidateKey {
    CandidateKey(c.peer, c.pathKind, c.relayPeer, c.source)
  }

  predicate HasCandidate(candidates: seq<PathCandidate>, key: CandidateKey) {
    exists c :: c in candidates && KeyOfCandidate(c) == key
  }

  function PushUnique(candidates: seq<PathCandidate>, c: PathCandidate): seq<PathCandidate> {
    if HasCandidate(candidates, KeyOfCandidate(c)) then candidates else candidates + [c]
  }

  function PushAllUnique(candidates: seq<PathCandidate>, more: seq<PathCandidate>): seq<PathCandidate>
    decreases |more|
  {
    if more == [] then candidates else PushAllUnique(PushUnique(candidates, more[0]), more[1..])
  }

  function Observed(candidates: seq<PathCandidate>): seq<PathCandidate> {
    Filter(candidates, (c: PathCandidate) => c.source == ObservedPath)
  }

  function Synthesized(state: DaemonState): seq<PathCandidate> {
    BootstrapCandidates(state.bootstrap, state.netcheck) + RelayCandidates(state.relayMap, state.peers, state.netcheck)
  }

  function MergedPathCandidates(state: DaemonState): seq<PathCandidate> {
    PushAllUnique(Observed(state.pathCandidates), Synthesized(state))
  }

  /** The loops of the merge: keep the observed candidates, then push each synthesized one once. */
  method MergeCandidates(state: DaemonState) returns (candidates: seq<PathCandidate>)
    ensures candidates == MergedPathCandidates(state)
  {
    candidates := [];
    for i := 0 to |state.pathCandidates|
      invariant candidates == Observed(state.pathCandidates[..i])
    {
      var c := state.pathCandidates[i];
      FilterAppend(state.pathCandidates[..i], [c], (c: PathCandidate) => c.source == ObservedPath);
      assert state.pathCandidates[..i + 1] == state.pathCandidates[..i] + [c];
      if c.source == ObservedPath {
        candidates := candidates + [c];
      }
    }
    assert state.pathCandidates[..|state.pathCandidates|] == state.pathCandidates;
    var synthesized := Synthesized(state);
    for i := 0 to |synthesized|
      invariant MergedPathCandidates(state) == PushAllUnique(candidates, synthesized[i..])
    {
      assert synthesized[i..][1..] == synthesized[i + 1..];
      if !HasCandidate(candidates, KeyOfCandidate(synthesized[i])) {
        candidates := candidates + [synthesized[i]];
      }
    }
  }

  // ---------------------------------------------------------------- peers, kept sorted by id

  predicate Before(a: string, b: string) {
    if b == "" then false
    else if a == "" then true
    else if a[0] != b[0] then a[0] < b[0]
    else Before(a[1..], b[1..])
  }

  function PutPeer(store: seq<PeerInspection>, entry: PeerInspection): seq<PeerInspection> {
    if store == [] then [entry]
    else if store[0].peer == entry.peer then [entry] + store[1..]
    else if Before(entry.peer, store[0].peer) then [entry] + store
    else [store[0]] + PutPeer(store[1..], entry)
  }

  function PutPeers(store: seq<PeerInspection>, entries: seq<PeerInspection>): seq<PeerInspection>
    decreases |entries|
  {
    if entries == [] then store else PutPeers(PutPeer(store, entries[0]), entries[1..])
  }

  function FindPeer(peers: seq<PeerInspection>, peer: PeerId): Option<PeerInspection> {
    if peers == [] then None
    else if peers[0].peer == peer then Some(peers[0])
    else FindPeer(peers[1..], peer)
  }

  /** A known peer keeps its status and takes the new addresses. */
  function Refreshed(store: seq<PeerInspection>, entry: PeerInspection): PeerInspection {
    match FindPeer(store, entry.peer)
    case None => entry
    case Some(known) => known.(addresses := entry.addresses)
  }

  function RefreshPeers(store: seq<PeerInspection>, entries: seq<PeerInspection>): seq<PeerInspection>
    decreases |entries|
  {
    if entries == [] then store
    else RefreshPeers(PutPeer(store, Refreshed(store, entries[0])), entries[1..])
  }

  function HintPeers(hints: seq<BootstrapHint>): seq<PeerInspection> {
    if hints == [] then []
    else
      (match hints[0].peer
       case None => []
       case Some(peer) => [PeerInspection(peer, hints[0].addresses, FromBootstrap, None)])
      + HintPeers(hints[1..])
  }

  function RelayPeer(relay: RelayAnnouncement, generatedAt: nat): PeerInspection {
    PeerInspection(relay.peer, relay.advertisedEndpoints, FromRelayMap, Some(generatedAt))
  }

  function RelayPeers(m: RelayMap): seq<PeerInspection> {
    PutPeers([], seq(|m.relays|, i requires 0 <= i < |m.relays| => RelayPeer(m.relays[i], m.generatedAt)))
  }

  // ---------------------------------------------------------------- routes

  function CandidatesFor(state: DaemonState, peer: PeerId): seq<PathCandidate> {
    Filter(state.pathCandidates, (c: PathCandidate) => c.peer == peer)
  }

  function BestPath(state: DaemonState, peer: PeerId, class_: TrafficClass): Option<PathCandidate> {
    SelectBestPath(CandidatesFor(state, peer), class_)
  }

  function FindRelay(relays: seq<RelayAnnouncement>, peer: PeerId): Option<RelayAnnouncement> {
    if relays == [] then None
    else if relays[0].peer == peer then Some(relays[0])
    else FindRelay(relays[1..], peer)
  }

  function Announcements(state: DaemonState): seq<RelayAnnouncement> {
    match state.relayMap case None => [] case Some(m) => m.relays
  }

  function SourceOfRoute(source: PathSource): T.RouteSource {
    match source
    case ObservedPath => T.Observed
    case BootstrapPath => T.Bootstrap
    case AuthorityPath => T.AuthorityRelay
  }

  function RelayPlanFor(relay: RelayAnnouncement, relayPeer: PeerId, destinations: seq<string>): T.RelayPlan {
    T.RelayPlan(relayPeer, RouteEndpoints(relay.advertisedEndpoints, DirectKind(relay.advertisedEndpoints)),
                relay.controlEndpoint, destinations, relay.supportsDatagrams, relay.supportsPathMigration)
  }

  function PlanRoute(state: DaemonState, peer: PeerId, protocol: Option<ProtocolId>, class_: TrafficClass)
    : Result<T.RoutePlan, DaemonError>
  {
    match BestPath(state, peer, class_)
    case None => Err(NoRouteTo(peer))
    case Some(path) =>
      match FindPeer(state.peers, peer)
      case None => Err(PeerNotFound(peer))
      case Some(inspection) =>
        var endpoints := RouteEndpoints(inspection.addresses, path.pathKind);
        var direct := T.RoutePlan(state.localPeer, peer, protocol, class_, path.pathKind,
                                  SourceOfRoute(path.source), endpoints, None);
        if path.pathKind != Relay then Ok(direct)
        else if path.relayPeer.None? then Err(NoRouteTo(peer))
        else
          match FindRelay(Announcements(state), path.relayPeer.value)
          case None => Err(NoRouteTo(peer))
          case Some(relay) => Ok(direct.(relay := Some(RelayPlanFor(relay, path.relayPeer.value, endpoints))))
  }

  // ---------------------------------------------------------------- steps of the durable state

  function AuthoritySnapshotOf(state: DaemonState): AuthoritySnapshot {
    AuthoritySnapshot(state.network, None, Some(state.membership), state.grants, state.revocations, state.bootstrap)
  }

  function Recached(state: DaemonState): DaemonState {
    state.(pathCandidates := MergedPathCandidates(state))
  }

  function SyncAuthority(state: DaemonState, incoming: AuthoritySnapshot): Result<(DaemonState, SnapshotDelta), DaemonError> {
    match MergeSnapshot(state.network, Some(AuthoritySnapshotOf(state)), incoming)
    case Err(error) => Err(ControlFailed(error))
    case Ok((merged, delta)) =>
      match merged.membership
      case None => Err(MissingMembership)
      case Some(membership) =>
        Ok((Recached(state.(
              localPeer := membership.subject, membership := membership, grants := merged.grants,
              revocations := merged.revocations, denied := DeniedPeers(membership, merged.revocations),
              bootstrap := merged.hints,
              peers := RefreshPeers(PutPeers([], state.peers), HintPeers(merged.hints)))),
            delta))
  }

  function ApplyRevocations(state: DaemonState, incoming: seq<RevocationRecord>): (DaemonState, nat) {
    var revocations := AppendRevocations(state.revocations, incoming);
    RevocationsGrow(state.revocations, incoming);
    (state.(revocations := revocations, denied := DeniedPeers(state.membership, revocations)),
     |revocations| - |state.revocations|)
  }

  /** The loop of `apply_revocations`, then the recomputed denials. */
  method ReceiveRevocations(state: DaemonState, incoming: seq<RevocationRecord>) returns (next: DaemonState, added: nat)
    ensures (next, added) == ApplyRevocations(state, incoming)
  {
    var revocations, pushed := PushRevocations(state.revocations, incoming);
    next := state.(revocations := revocations, denied := DeniedPeers(state.membership, revocations));
    added := pushed;
  }

  function ApplyRelayMap(state: DaemonState, incoming: RelayMap): (DaemonState, nat) {
    if state.relayMap.Some? && state.relayMap.value.version > incoming.version then (state, 0)
    else
      (Recached(state.(relayMap := Some(incoming),
                       peers := RefreshPeers(PutPeers([], state.peers), RelayPeers(incoming)))),
       |Filter(incoming.relays, (r: RelayAnnouncement) => !IsRelayPeer(Announcements(state), r.peer))|)
  }

  function ReprobeNetcheck(netcheck: Netcheck, reason: string): Netcheck {
    var mapped := netcheck.portMapped || netcheck.publicUdpAddr.Some?;
    var probed := netcheck.(
      udpReachable := netcheck.udpReachable || mapped,
      natType := if mapped && (netcheck.natType == UnknownNat || netcheck.natType == UdpBlocked) then RestrictedCone
                 else netcheck.natType,
      ipv6Reachable := netcheck.ipv6Reachable
                       || (netcheck.publicUdpAddr.Some? && IsIpv6(netcheck.publicUdpAddr.value)));
    var passed := probed.udpReachable || probed.ipv6Reachable;
    var latency := if !passed then None
                   else match BestProbeLatency(netcheck.probes) case None => Some(20) case Some(ms) => Some(ms);
    probed.(probes := LastN(netcheck.probes + [ProbeObservation(
      "local-runtime", if passed then ProbePassed else ProbeFailed, latency, "network change reprobe: " + reason)], 8))
  }

  function Reprobe(state: DaemonState, reason: string): DaemonState {
    Recached(state.(netcheck := ReprobeNetcheck(state.netcheck, reason)))
  }

  const PENDING_NETCHECK := Netcheck(UnknownNat, false, false, None, false,
    [ProbeObservation("local", ProbePending, None, "netcheck has not run yet")])

  function FromAuthoritySnapshot(network: string, snapshot: AuthoritySnapshot): Result<DaemonState, DaemonError> {
    if snapshot.networkId != network then Err(NetworkDiffers)
    else if snapshot.membership.None? then Err(MissingMembership)
    else
      var membership := snapshot.membership.value;
      Ok(Recached(DaemonState(
        network, membership.subject, membership, snapshot.grants, snapshot.revocations,
        DeniedPeers(membership, snapshot.revocations), snapshot.hints, None,
        PutPeers([], HintPeers(snapshot.hints)), PENDING_NETCHECK, [])))
  }

  datatype StateSyncReport = StateSyncReport(delta: SnapshotDelta, relaysAdded: nat)

  /** One sync with the authority's origin: the snapshot, then the relay map; the first sync creates the state. */
  function SyncOrigin(existing: Option<DaemonState>, network: string, snapshot: AuthoritySnapshot, relayMap: RelayMap)
    : Result<(DaemonState, StateSyncReport), DaemonError>
  {
    match existing
    case None =>
      (match FromAuthoritySnapshot(network, snapshot)
       case Err(error) => Err(error)
       case Ok(started) =>
         var (state, relaysAdded) := ApplyRelayMap(Recached(started), relayMap);
         Ok((state, StateSyncReport(
               SnapshotDelta(true, |state.grants|, 0, |state.revocations|, |state.bootstrap|, 0), relaysAdded))))
    case Some(state) =>
      match SyncAuthority(state, snapshot)
      case Err(error) => Err(error)
      case Ok((synced, delta)) =>
        var (mapped, relaysAdded) := ApplyRelayMap(synced, relayMap);
        Ok((mapped, StateSyncReport(delta, relaysAdded)))
  }

  predicate RequiresReevaluation(report: StateSyncReport) {
    || report.delta.membershipChanged
    || report.delta.grantsAdded > 0 || report.delta.grantsRemoved > 0
    || report.delta.revocationsAdded > 0
    || report.delta.hintsAdded > 0 || report.delta.hintsRemoved > 0
    || report.relaysAdded > 0
  }

  datatype DurableStep =
    | SyncStep(snapshot: AuthoritySnapshot)
    | RevocationsStep(records: seq<RevocationRecord>)
    | RelayMapStep(relayMap: RelayMap)
    | ReprobeStep(reason: string)
    | ReloadStep

  function Step(state: DaemonState, step: DurableStep): DaemonState {
    match step
    case SyncStep(snapshot) =>
      (match SyncAuthority(state, snapshot) case Err(_) => state case Ok(result) => result.0)
    case RevocationsStep(records) => ApplyRevocations(state, records).0
    case RelayMapStep(m) => ApplyRelayMap(state, m).0
    case ReprobeStep(reason) => Reprobe(state, reason)
    case ReloadStep => Recached(state)
  }

  function Run(state: DaemonState, steps: seq<DurableStep>): DaemonState
    decreases |steps|
  {
    if steps == [] then state else Run(Step(state, steps[0]), steps[1..])
  }
}
