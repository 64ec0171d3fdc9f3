/**
 The path candidates that the state makes up from hints, relays and probes, and the routes planned over
 candidates, on the fields of their sources.
 */
module CandidateProofs {
  import opened Model
  import opened Texts
  import opened SnapshotMerge
  import opened Routing
  import opened PathCosts
  import opened DurableState
  import opened DurableProofs
  import R = RouteStability
  import T = Transport

  // ---------------------------------------------------------------- addresses

  /** An address is read as IPv6 when it opens a bracket after the scheme or has more than two colons. */
  lemma Ipv6Exactly(address: string)
    ensures IsIpv6(address) <==>
            (exists before, after :: address == (before + "://[") + after) || multiset(address)[':'] > 2
  {
    ContainsExactly(address, "://[");
    CountsOccurrences(address, ':');
    hide Contains, CountChar;
  }

  lemma DirectExactly(address: string)
    ensures IsDirectQuic(address) <==> (exists rest :: address == "quic://" + rest) || (exists rest :: address == "udp://" + rest)
  {
    StartsExactly(address, "quic://");
    StartsExactly(address, "udp://");
    hide StartsWith;
  }

  /**
   Which addresses serve which kind of path: a relay path takes every direct address, the two direct kinds
   share those out by their family, loopback and local network go by what the text contains.
   */
  lemma KindsExactly(address: string)
    ensures MatchesPathKind(address, Relay) <==> IsDirectQuic(address)
    ensures MatchesPathKind(address, DirectIpv6) <==> IsDirectQuic(address) && IsIpv6(address)
    ensures MatchesPathKind(address, DirectUdp) <==> MatchesPathKind(address, Relay) && !MatchesPathKind(address, DirectIpv6)
    ensures MatchesPathKind(address, Loopback) <==>
            exists before, after, mark :: mark in {"127.0.0.1", "://[::1]"} && address == (before + mark) + after
    ensures MatchesPathKind(address, Lan) <==>
            exists before, after, mark :: mark in {"192.168.", "10.", "172.16."} && address == (before + mark) + after
  {
    ContainsExactly(address, "127.0.0.1");
    ContainsExactly(address, "://[::1]");
    ContainsExactly(address, "192.168.");
    ContainsExactly(address, "10.");
    ContainsExactly(address, "172.16.");
    hide Contains, IsDirectQuic, IsIpv6;
  }

  /** The endpoints of a route: those of the kind when there are any, else all, in their order. */
  lemma EndpointsExactly(addresses: seq<string>, kind: PathKind)
    ensures var chosen := RouteEndpoints(addresses, kind);
            && (chosen == [] <==> addresses == [])
            && (forall a :: a in chosen <==>
                  a in addresses && (MatchesPathKind(a, kind) || forall b :: b in addresses ==> !MatchesPathKind(b, kind)))
            && ((forall b :: b in addresses ==> MatchesPathKind(b, kind)) ==> chosen == addresses)
            && ((forall b :: b in addresses ==> !MatchesPathKind(b, kind)) ==> chosen == addresses)
  {
    var keep := (a: string) => MatchesPathKind(a, kind);
    FilterMembers(addresses, keep);
    hide MatchesPathKind;
    if forall b :: b in addresses ==> MatchesPathKind(b, kind) {
      FilterAll(addresses, keep);
    }
    if forall b :: b in addresses ==> !MatchesPathKind(b, kind) {
      FilterNone(addresses, keep);
    }
    var matching := Filter(addresses, keep);
    if matching != [] {
      assert matching[0] in matching;
    }
  }

  // ---------------------------------------------------------------- measurements

  /** The best latency is the smallest one of a probe that passed and measured any. */
  lemma {:induction false} BestLatencyExactly(probes: seq<ProbeObservation>)
    ensures var best := BestProbeLatency(probes);
            && (best.None? <==> forall p :: p in probes ==> p.status != ProbePassed || p.latencyMs.None?)
            && (best.Some? ==>
                  && (exists p :: p in probes && p.status == ProbePassed && p.latencyMs == best)
                  && forall p :: p in probes && p.status == ProbePassed && p.latencyMs.Some? ==> best.value <= p.latencyMs.value)
  {
    if probes != [] {
      BestLatencyExactly(probes[1..]);
      assert probes == [probes[0]] + probes[1..];
    }
  }

  function LatencyOr(netcheck: Netcheck, otherwise: nat): nat {
    match BestProbeLatency(netcheck.probes) case None => otherwise case Some(ms) => ms
  }

  /** A hinted peer: the measurements are guesses that hang on whether UDP gets through. */
  lemma HintedCandidate(hint: BootstrapHint, netcheck: Netcheck)
    requires hint.peer.Some?
    ensures var c := BootstrapCandidate(hint, netcheck);
            && c.peer == hint.peer.value && c.relayPeer.None? && c.source == BootstrapPath && c.relayPenalty == 0
            && c.trafficClasses == [Control, Interactive, Bulk, Background]
            && (c.pathKind == DirectIpv6 <==> exists a :: a in hint.addresses && IsIpv6(a))
            && (c.pathKind == DirectUdp <==> forall a :: a in hint.addresses ==> !IsIpv6(a))
            && c.rttMs == LatencyOr(netcheck, 40)
            && (netcheck.udpReachable ==> c.jitterMs == 3 && c.lossPct == 0.2 && c.throughputMbps == 600)
            && (!netcheck.udpReachable ==> c.jitterMs == 12 && c.lossPct == 1.5 && c.throughputMbps == 120)
  {
    hide IsIpv6, BestProbeLatency;
  }

  /** A relay itself: 5 ms behind the best probe over IPv6, else 15, and as fast as it announces within limits. */
  lemma DirectRelay(relay: RelayAnnouncement, netcheck: Netcheck)
    ensures var c := DirectRelayCandidate(relay, netcheck);
            var six := exists a :: a in relay.advertisedEndpoints && IsIpv6(a);
            && c.peer == relay.peer && c.relayPeer.None? && c.source == AuthorityPath && c.relayPenalty == 0
            && c.trafficClasses == RelayTrafficClasses(relay.trafficClasses)
            && c.pathKind == (if six then DirectIpv6 else DirectUdp)
            && (var rtt := LatencyOr(netcheck, if netcheck.udpReachable then 30 else 70)
                           + if six && netcheck.ipv6Reachable then 5 else 15;
                c.rttMs == rtt || (c.rttMs == U32_LIMIT - 1 < rtt))
            && (netcheck.udpReachable ==> c.jitterMs == 4 && c.lossPct == 0.3)
            && (!netcheck.udpReachable ==> c.jitterMs == 14 && c.lossPct == 1.8)
            && 100 <= c.throughputMbps <= 5000
            && (100_000_000 <= relay.maxBandwidthBps < 5_001_000_000 ==>
                  c.throughputMbps * 1_000_000 <= relay.maxBandwidthBps < (c.throughputMbps + 1) * 1_000_000)
            && (relay.maxBandwidthBps < 100_000_000 ==> c.throughputMbps == 100)
            && (relay.maxBandwidthBps >= 5_000_000_000 ==> c.throughputMbps == 5000)
  {
    hide IsIpv6, BestProbeLatency, RelayTrafficClasses;
  }

  /** A peer behind a relay: twice the relay's way and 20 ms, half its throughput, and a penalty. */
  lemma BehindRelay(peer: PeerId, relay: RelayAnnouncement, netcheck: Netcheck)
    ensures var c, direct := FallbackCandidate(peer, relay, netcheck), DirectRelayCandidate(relay, netcheck);
            && c.peer == peer && c.relayPeer == Some(relay.peer) && c.pathKind == Relay && c.source == AuthorityPath
            && c.trafficClasses == direct.trafficClasses && c.relayPenalty == 25
            && (c.rttMs == 2 * direct.rttMs + 20 || c.rttMs == U32_LIMIT - 1 < 2 * direct.rttMs + 20)
            && c.jitterMs == direct.jitterMs + 5 && c.lossPct == direct.lossPct + 0.4
            && (c.throughputMbps == direct.throughputMbps / 2 || c.throughputMbps == 80 > direct.throughputMbps / 2)
  {
    hide DirectRelayRtt, RelayThroughput, RelayTrafficClasses;
  }

  // ---------------------------------------------------------------- which candidates there are

  lemma {:induction false} HintedExactly(hints: seq<BootstrapHint>, netcheck: Netcheck, c: PathCandidate)
    ensures c in BootstrapCandidates(hints, netcheck) <==>
            && (netcheck.udpReachable || netcheck.ipv6Reachable)
            && exists h :: h in hints && h.peer.Some? && (exists a :: a in h.addresses && IsDirectQuic(a))
                           && c == BootstrapCandidate(h, netcheck)
  {
    hide BootstrapCandidate, IsDirectQuic;
    if hints != [] {
      HintedExactly(hints[1..], netcheck, c);
      assert hints == [hints[0]] + hints[1..];
    }
  }

  lemma {:induction false} FallbacksExactly(peers: seq<PeerInspection>, relays: seq<RelayAnnouncement>, netcheck: Netcheck,
                                            c: PathCandidate)
    ensures c in AllFallbacks(peers, relays, netcheck) <==>
            exists p, r :: p in peers && r in relays && (forall other :: other in relays ==> other.peer != p.peer)
                           && c == FallbackCandidate(p.peer, r, netcheck)
  {
    hide FallbackCandidate;
    if peers != [] {
      FallbacksExactly(peers[1..], relays, netcheck, c);
      assert peers == [peers[0]] + peers[1..];
      OneFallback(peers[0].peer, relays, netcheck, c);
      hide FallbackCandidates;
    }
  }

  lemma OneFallback(peer: PeerId, relays: seq<RelayAnnouncement>, netcheck: Netcheck, c: PathCandidate)
    ensures c in FallbackCandidates(peer, relays, netcheck) <==> exists r :: r in relays && c == FallbackCandidate(peer, r, netcheck)
  {
    hide FallbackCandidate;
    if r :| r in relays && c == FallbackCandidate(peer, r, netcheck) {
      var i :| 0 <= i < |relays| && relays[i] == r;
      assert FallbackCandidates(peer, relays, netcheck)[i] == c;
    }
  }

  lemma OneDirect(relays: seq<RelayAnnouncement>, netcheck: Netcheck, c: PathCandidate)
    ensures c in DirectRelayCandidates(relays, netcheck) <==> exists r :: r in relays && c == DirectRelayCandidate(r, netcheck)
  {
    hide DirectRelayCandidate;
    if r :| r in relays && c == DirectRelayCandidate(r, netcheck) {
      var i :| 0 <= i < |relays| && relays[i] == r;
      assert DirectRelayCandidates(relays, netcheck)[i] == c;
    }
  }

  /**
   The synthesized candidates are exactly these: each hinted peer with a direct address once anything gets
   through, each announced relay, and each known peer that is no relay behind each announced relay.
   */
  lemma SynthesizedExactly(state: DaemonState, c: PathCandidate)
    ensures c in Synthesized(state) <==>
            || (&& (state.netcheck.udpReachable || state.netcheck.ipv6Reachable)
                && exists h :: h in state.bootstrap && h.peer.Some? && (exists a :: a in h.addresses && IsDirectQuic(a))
                               && c == BootstrapCandidate(h, state.netcheck))
            || (exists r :: r in Announcements(state) && c == DirectRelayCandidate(r, state.netcheck))
            || (exists p, r :: p in state.peers && r in Announcements(state)
                               && (forall other :: other in Announcements(state) ==> other.peer != p.peer)
                               && c == FallbackCandidate(p.peer, r, state.netcheck))
  {
    HintedExactly(state.bootstrap, state.netcheck, c);
    FallbacksExactly(state.peers, Announcements(state), state.netcheck, c);
    OneDirect(Announcements(state), state.netcheck, c);
    hide BootstrapCandidates, AllFallbacks, DirectRelayCandidates, BootstrapCandidate, DirectRelayCandidate,
         FallbackCandidate, IsDirectQuic;
  }

  /** The merge on fields: every synthesized candidate is represented, and none of the added ones repeats another's four. */
  lemma MergedOnFields(state: DaemonState)
    ensures var merged, observed := MergedPathCandidates(state), Observed(state.pathCandidates);
            && (forall c :: c in Synthesized(state) ==>
                  exists m :: m in merged && m.peer == c.peer && m.pathKind == c.pathKind && m.relayPeer == c.relayPeer
                              && m.source == c.source)
            && (forall i, j :: |observed| <= i < j < |merged| ==>
                  !(merged[i].peer == merged[j].peer && merged[i].pathKind == merged[j].pathKind
                    && merged[i].relayPeer == merged[j].relayPeer && merged[i].source == merged[j].source))
  {
    MergedShape(state);
    hide MergedPathCandidates, Synthesized, Observed;
    var merged, observed := MergedPathCandidates(state), Observed(state.pathCandidates);
    forall c | c in Synthesized(state)
      ensures exists m :: m in merged && m.peer == c.peer && m.pathKind == c.pathKind && m.relayPeer == c.relayPeer
                          && m.source == c.source
    {
      var m :| m in merged && KeyOfCandidate(m) == KeyOfCandidate(c);
    }
    var added := merged[|observed|..];
    forall i, j | |observed| <= i < j < |merged|
      ensures !(merged[i].peer == merged[j].peer && merged[i].pathKind == merged[j].pathKind
                && merged[i].relayPeer == merged[j].relayPeer && merged[i].source == merged[j].source)
    {
      assert added[i - |observed|] == merged[i] && added[j - |observed|] == merged[j];
    }
  }
}
