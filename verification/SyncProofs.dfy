/**
 What a reprobe, a sync and a first state contain, on the fields of the netcheck, the snapshot and the relay map.
 */
module SyncProofs {
  import opened Model
  import opened SnapshotMerge
  import opened Routing
  import opened DurableState
  import opened DurableProofs

  // ---------------------------------------------------------------- reprobes

  /** A reprobe only gains reachability, from a mapped port or a public address; the NAT is corrected, not replaced. */
  lemma ReachabilityGained(netcheck: Netcheck, reason: string)
    ensures var after := ReprobeNetcheck(netcheck, reason);
            && (after.udpReachable <==> netcheck.udpReachable || netcheck.portMapped || netcheck.publicUdpAddr.Some?)
            && (after.ipv6Reachable <==>
                  netcheck.ipv6Reachable || exists address :: netcheck.publicUdpAddr == Some(address) && IsIpv6(address))
            && (after.natType != netcheck.natType <==>
                  (netcheck.portMapped || netcheck.publicUdpAddr.Some?) && netcheck.natType in {UnknownNat, UdpBlocked})
            && after.natType in {netcheck.natType, RestrictedCone}
            && after.portMapped == netcheck.portMapped && after.publicUdpAddr == netcheck.publicUdpAddr
  {
    hide IsIpv6, BestProbeLatency;
  }

  /** The probes of a reprobe: a new last one that passed exactly when something is reachable, and at most seven old ones. */
  lemma ProbeRecorded(netcheck: Netcheck, reason: string)
    ensures var after := ReprobeNetcheck(netcheck, reason);
            var kept := Min(|netcheck.probes|, 7);
            && |after.probes| == kept + 1
            && after.probes[..kept] == netcheck.probes[|netcheck.probes| - kept..]
            && after.probes[kept].vantage == "local-runtime"
            && after.probes[kept].detail == "network change reprobe: " + reason
            && (after.probes[kept].status == ProbePassed <==> after.udpReachable || after.ipv6Reachable)
            && (after.probes[kept].status == ProbeFailed <==> !after.udpReachable && !after.ipv6Reachable)
            && (after.probes[kept].latencyMs.None? <==> after.probes[kept].status == ProbeFailed)
            && (forall ms :: after.probes[kept].latencyMs == Some(ms) ==>
                  BestProbeLatency(netcheck.probes) == Some(ms) || (BestProbeLatency(netcheck.probes) == None && ms == 20))
  {
    hide IsIpv6, BestProbeLatency;
    var after, kept := ReprobeNetcheck(netcheck, reason), Min(|netcheck.probes|, 7);
    assert after.probes[..kept] == netcheck.probes[|netcheck.probes| - kept..];
  }

  // ---------------------------------------------------------------- the first state

  /** A first state exists exactly for a snapshot of the network with a membership, and holds what the snapshot says. */
  lemma FirstStateExactly(network: string, snapshot: AuthoritySnapshot)
    ensures FromAuthoritySnapshot(network, snapshot).Ok? <==> snapshot.networkId == network && snapshot.membership.Some?
    ensures FromAuthoritySnapshot(network, snapshot) == Err(NetworkDiffers) <==> snapshot.networkId != network
    ensures FromAuthoritySnapshot(network, snapshot).Ok? ==>
      var state := FromAuthoritySnapshot(network, snapshot).value;
      && state.network == network && Some(state.membership) == snapshot.membership
      && state.localPeer == state.membership.subject && state.grants == snapshot.grants
      && state.revocations == snapshot.revocations && state.bootstrap == snapshot.hints && state.relayMap == None
      && !state.netcheck.udpReachable && !state.netcheck.ipv6Reachable
      && (forall peer :: DenyReason(state, peer).Some? <==>
            exists r :: r in snapshot.revocations && Denies(state.membership, r, peer))
      && CachesAgree(state)
  {
    if FromAuthoritySnapshot(network, snapshot).Ok? {
      FreshStateAgrees(network, snapshot);
      var state := FromAuthoritySnapshot(network, snapshot).value;
      forall peer
        ensures DenyReason(state, peer).Some? <==> exists r :: r in snapshot.revocations && Denies(state.membership, r, peer)
      {
        DeniedExactly(state.membership, snapshot.revocations, peer);
      }
    }
    hide DeniedPeers, MergedPathCandidates, PutPeers, HintPeers, FindDenied, Denies, CachesAgree;
  }

  // ---------------------------------------------------------------- later syncs

  /** A sync fails only as its merge does: once there is a membership there always is one. */
  lemma SyncFailsExactly(state: DaemonState, incoming: AuthoritySnapshot)
    ensures var merge := MergeSnapshot(state.network, Some(AuthoritySnapshotOf(state)), incoming);
            && (SyncAuthority(state, incoming).Ok? <==> merge.Ok?)
            && (merge.Err? ==> SyncAuthority(state, incoming) == Err(ControlFailed(merge.error)))
  {
    hide ConflictingGrants, AppendRevocations, NewGrants, NewHints, MergedPathCandidates, DeniedPeers, RefreshPeers, PutPeers;
  }

  /** What a sync leaves: the snapshot's grants and hints, all revocations known, denials to match, the rest as it was. */
  lemma SyncedOnFields(state: DaemonState, incoming: AuthoritySnapshot)
    requires SyncAuthority(state, incoming).Ok?
    ensures var (after, delta) := SyncAuthority(state, incoming).value;
            && after.grants == incoming.grants && after.bootstrap == incoming.hints
            && after.network == state.network && after.relayMap == state.relayMap && after.netcheck == state.netcheck
            && after.localPeer == after.membership.subject == state.membership.subject
            && (after.membership == state.membership || Some(after.membership) == incoming.membership)
            && (delta.membershipChanged <==> after.membership != state.membership)
            && state.revocations <= after.revocations && |after.revocations| == |state.revocations| + delta.revocationsAdded
            && (forall r :: r in state.revocations || r in incoming.revocations ==> KnownRevocation(after.revocations, r))
            && (forall peer :: DenyReason(after, peer).Some? <==>
                  exists r :: r in after.revocations && Denies(after.membership, r, peer))
  {
    SyncFailsExactly(state, incoming);
    RevocationsGrow(state.revocations, incoming.revocations);
    AppendCovers(state.revocations, incoming.revocations);
    var after := SyncAuthority(state, incoming).value.0;
    forall peer
      ensures FindDenied(DeniedPeers(after.membership, after.revocations), peer).Some? <==>
              exists r :: r in after.revocations && Denies(after.membership, r, peer)
    {
      DeniedExactly(after.membership, after.revocations, peer);
    }
    hide ConflictingGrants, AppendRevocations, NewGrants, NewHints, MergedPathCandidates, DeniedPeers, RefreshPeers, PutPeers,
         HintPeers, FindDenied, Denies, KnownRevocation;
  }

  /** A relay map is taken unless an announced one is newer; the count is of peers that were not announced. */
  lemma RelayMapOnFields(state: DaemonState, incoming: RelayMap)
    ensures var (after, added) := ApplyRelayMap(state, incoming);
            var older := state.relayMap.Some? && incoming.version < state.relayMap.value.version;
            && (older ==> after == state && added == 0)
            && (!older ==>
                  && after.relayMap == Some(incoming)
                  && added == |Filter(incoming.relays, (r: RelayAnnouncement) =>
                                        forall known :: known in Announcements(state) ==> known.peer != r.peer)|)
            && after.grants == state.grants && after.revocations == state.revocations && after.denied == state.denied
            && after.membership == state.membership && after.localPeer == state.localPeer && after.network == state.network
            && after.bootstrap == state.bootstrap && after.netcheck == state.netcheck
  {
    hide MergedPathCandidates, RefreshPeers, PutPeers, RelayPeers;
    var unseen := (r: RelayAnnouncement) => !IsRelayPeer(Announcements(state), r.peer);
    var other := (r: RelayAnnouncement) => forall known :: known in Announcements(state) ==> known.peer != r.peer;
    SameKept(incoming.relays, unseen, other);
    hide Filter;
  }

  lemma {:induction false} SameKept<X(!new)>(s: seq<X>, a: X -> bool, b: X -> bool)
    requires forall x :: a(x) <==> b(x)
    ensures Filter(s, a) == Filter(s, b)
  {
    if s != [] {
      SameKept(s[1..], a, b);
    }
  }

  /** The report of a sync with the origin: everything is new for a first state, else the two halves' counts. */
  lemma OriginOnFields(existing: Option<DaemonState>, network: string, snapshot: AuthoritySnapshot, relayMap: RelayMap)
    requires SyncOrigin(existing, network, snapshot, relayMap).Ok?
    ensures var (after, report) := SyncOrigin(existing, network, snapshot, relayMap).value;
            && after.grants == snapshot.grants && after.bootstrap == snapshot.hints
            && (existing.None? ==>
                  && report.delta.membershipChanged
                  && report.delta.grantsAdded == |snapshot.grants| && report.delta.grantsRemoved == 0
                  && report.delta.revocationsAdded == |snapshot.revocations|
                  && report.delta.hintsAdded == |snapshot.hints| && report.delta.hintsRemoved == 0
                  && report.relaysAdded == |relayMap.relays| && after.relayMap == Some(relayMap))
            && (existing.Some? ==>
                  && SyncAuthority(existing.value, snapshot).Ok?
                  && report.delta == SyncAuthority(existing.value, snapshot).value.1
                  && report.relaysAdded == ApplyRelayMap(SyncAuthority(existing.value, snapshot).value.0, relayMap).1)
  {
    if existing.None? {
      FirstStateExactly(network, snapshot);
      var started := FromAuthoritySnapshot(network, snapshot).value;
      RelayMapOnFields(Recached(started), relayMap);
      FilterAll(relayMap.relays, (r: RelayAnnouncement) =>
                                   forall known :: known in Announcements(Recached(started)) ==> known.peer != r.peer);
    } else {
      SyncedOnFields(existing.value, snapshot);
      RelayMapOnFields(SyncAuthority(existing.value, snapshot).value.0, relayMap);
    }
    hide FromAuthoritySnapshot, SyncAuthority, ApplyRelayMap, MergedPathCandidates, Filter, CachesAgree, Denies, FindDenied;
  }

  /** A sync asks for a reevaluation exactly when it changed the membership or counted anything. */
  lemma ReevaluationAskedExactly(report: StateSyncReport)
    ensures RequiresReevaluation(report) <==> report.delta != ZERO_DELTA || report.relaysAdded != 0
  {
  }
}
