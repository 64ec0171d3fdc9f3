/**
 Planned routes and the peer store on the fields of what they are built from: the candidate that wins, the
 entry of the peer, the announcement of the relay.
 */
module PlanProofs {
  import opened Model
  import opened SnapshotMerge
  import opened Routing
  import opened PathCosts
  import opened DurableState
  import opened DurableProofs
  import R = RouteStability
  import T = Transport

  // ---------------------------------------------------------------- the route

  predicate Serving(state: DaemonState, peer: PeerId, class_: TrafficClass, c: PathCandidate) {
    c in state.pathCandidates && c.peer == peer && class_ in c.trafficClasses
  }

  /** A candidate that serves the peer and the class, and that no other such candidate beats. */
  ghost predicate Unbeaten(state: DaemonState, peer: PeerId, class_: TrafficClass, path: PathCandidate) {
    && Serving(state, peer, class_, path)
    && forall c :: Serving(state, peer, class_, c) ==> !Better(c, path, class_)
  }

  predicate PeerAt(peers: seq<PeerInspection>, i: nat, peer: PeerId) {
    i < |peers| && peers[i].peer == peer && forall j :: 0 <= j < i ==> peers[j].peer != peer
  }

  predicate RelayAt(relays: seq<RelayAnnouncement>, i: nat, peer: PeerId) {
    i < |relays| && relays[i].peer == peer && forall j :: 0 <= j < i ==> relays[j].peer != peer
  }

  lemma {:induction false} PeerIsFirst(peers: seq<PeerInspection>, peer: PeerId)
    ensures FindPeer(peers, peer).None? <==> forall e :: e in peers ==> e.peer != peer
    ensures FindPeer(peers, peer).Some? <==> exists i: nat :: PeerAt(peers, i, peer)
    ensures forall i: nat :: PeerAt(peers, i, peer) ==> FindPeer(peers, peer) == Some(peers[i])
  {
    if peers != [] {
      PeerIsFirst(peers[1..], peer);
      assert peers == [peers[0]] + peers[1..];
      if i: nat :| PeerAt(peers[1..], i, peer) && peers[0].peer != peer {
        assert PeerAt(peers, i + 1, peer);
      }
      if peers[0].peer == peer {
        assert PeerAt(peers, 0, peer);
      }
      forall i: nat | PeerAt(peers, i, peer) ensures FindPeer(peers, peer) == Some(peers[i]) {
        assert i > 0 ==> PeerAt(peers[1..], i - 1, peer);
      }
    }
  }

  lemma {:induction false} RelayIsFirst(relays: seq<RelayAnnouncement>, peer: PeerId)
    ensures FindRelay(relays, peer).None? <==> forall r :: r in relays ==> r.peer != peer
    ensures FindRelay(relays, peer).Some? <==> exists i: nat :: RelayAt(relays, i, peer)
    ensures forall i: nat :: RelayAt(relays, i, peer) ==> FindRelay(relays, peer) == Some(relays[i])
  {
    if relays != [] {
      RelayIsFirst(relays[1..], peer);
      assert relays == [relays[0]] + relays[1..];
      if i: nat :| RelayAt(relays[1..], i, peer) && relays[0].peer != peer {
        assert RelayAt(relays, i + 1, peer);
      }
      if relays[0].peer == peer {
        assert RelayAt(relays, 0, peer);
      }
      forall i: nat | RelayAt(relays, i, peer) ensures FindRelay(relays, peer) == Some(relays[i]) {
        assert i > 0 ==> RelayAt(relays[1..], i - 1, peer);
      }
    }
  }

  lemma BestIsUnbeaten(state: DaemonState, peer: PeerId, class_: TrafficClass)
    ensures BestPath(state, peer, class_).Some? <==> exists c :: Serving(state, peer, class_, c)
    ensures BestPath(state, peer, class_).Some? ==> Unbeaten(state, peer, class_, BestPath(state, peer, class_).value)
  {
    FilterMembers(state.pathCandidates, (c: PathCandidate) => c.peer == peer);
    SelectsNoWorse(CandidatesFor(state, peer), class_);
    hide SelectBestPath, Filter, Better;
    if c :| Serving(state, peer, class_, c) {
      assert c in CandidatesFor(state, peer);
    }
    if BestPath(state, peer, class_).Some? {
      assert Serving(state, peer, class_, BestPath(state, peer, class_).value);
      forall c | Serving(state, peer, class_, c) ensures !Better(c, BestPath(state, peer, class_).value, class_) {
        assert c in CandidatesFor(state, peer);
      }
    }
  }

  /** The relay that the path goes through is announced. */
  predicate Announced(state: DaemonState, path: PathCandidate) {
    path.relayPeer.Some? && exists r :: r in Announcements(state) && r.peer == path.relayPeer.value
  }

  /** The route goes over the path, to the addresses of the entry. */
  predicate GoesOver(state: DaemonState, path: PathCandidate, entry: PeerInspection, route: T.RoutePlan) {
    && route.localPeer == state.localPeer && route.peer == entry.peer && route.pathKind == path.pathKind
    && route.remoteEndpoints == RouteEndpoints(entry.addresses, path.pathKind)
    && (path.source == ObservedPath <==> route.source == T.Observed)
    && (path.source == BootstrapPath <==> route.source == T.Bootstrap)
    && (path.source == AuthorityPath <==> route.source == T.AuthorityRelay)
    && (path.pathKind == Relay <==> route.relay.Some?)
  }

  /** The relay plan says what the relay announces. */
  predicate Through(relay: RelayAnnouncement, route: T.RoutePlan) {
    && route.relay.Some?
    && var plan := route.relay.value;
    && plan.relayPeer == relay.peer && plan.relayControlEndpoint == relay.controlEndpoint
    && plan.destinationEndpoints == route.remoteEndpoints
    && plan.supportsDatagrams == relay.supportsDatagrams
    && plan.supportsPathMigration == relay.supportsPathMigration
    && ((exists a :: a in relay.advertisedEndpoints && IsIpv6(a)) ==>
          plan.relayEndpoints == RouteEndpoints(relay.advertisedEndpoints, DirectIpv6))
    && ((forall a :: a in relay.advertisedEndpoints ==> !IsIpv6(a)) ==>
          plan.relayEndpoints == RouteEndpoints(relay.advertisedEndpoints, DirectUdp))
  }

  /** There is a route exactly when a serving path is found, the peer is known, and a relay path's relay announced. */
  lemma RoutesExactly(state: DaemonState, peer: PeerId, protocol: Option<ProtocolId>, class_: TrafficClass)
    ensures var planned := PlanRoute(state, peer, protocol, class_);
            var served, known := (exists c :: Serving(state, peer, class_, c)), (exists e :: e in state.peers && e.peer == peer);
            && (!served ==> planned == Err(NoRouteTo(peer)))
            && (planned == Err(PeerNotFound(peer)) <==> served && !known)
            && (served && known ==>
                  exists path :: && Unbeaten(state, peer, class_, path)
                                 && (planned.Ok? <==> path.pathKind != Relay || Announced(state, path))
                                 && (planned.Err? ==> planned == Err(NoRouteTo(peer))))
  {
    BestIsUnbeaten(state, peer, class_);
    PeerIsFirst(state.peers, peer);
    var best := BestPath(state, peer, class_);
    if best.Some? && best.value.relayPeer.Some? {
      RelayIsFirst(Announcements(state), best.value.relayPeer.value);
    }
    hide BestPath, FindPeer, FindRelay, RouteEndpoints, DirectKind, Unbeaten, Serving;
  }

  /** A planned route, field by field: an unbeaten path, the peer's first entry, the relay's first announcement. */
  lemma RouteOnFields(state: DaemonState, peer: PeerId, protocol: Option<ProtocolId>, class_: TrafficClass)
    requires PlanRoute(state, peer, protocol, class_).Ok?
    ensures var route := PlanRoute(state, peer, protocol, class_).value;
            && route.peer == peer && route.protocol == protocol && route.class_ == class_
            && exists path, i: nat ::
                 && Unbeaten(state, peer, class_, path) && PeerAt(state.peers, i, peer)
                 && GoesOver(state, path, state.peers[i], route)
                 && (path.pathKind == Relay ==>
                       && path.relayPeer.Some?
                       && exists k: nat :: && RelayAt(Announcements(state), k, path.relayPeer.value)
                                           && Through(Announcements(state)[k], route))
  {
    BestIsUnbeaten(state, peer, class_);
    PeerIsFirst(state.peers, peer);
    var path := BestPath(state, peer, class_).value;
    if path.relayPeer.Some? {
      RelayIsFirst(Announcements(state), path.relayPeer.value);
    }
    hide BestPath, FindPeer, FindRelay, RouteEndpoints, IsIpv6, Unbeaten, Serving;
    var route := PlanRoute(state, peer, protocol, class_).value;
    var i: nat :| PeerAt(state.peers, i, peer);
    assert GoesOver(state, path, state.peers[i], route);
    if path.pathKind == Relay {
      var k: nat :| RelayAt(Announcements(state), k, path.relayPeer.value);
      assert Through(Announcements(state)[k], route);
    }
  }

  // ---------------------------------------------------------------- the order of the peer store

  /** The order of the store: at the first difference the smaller character comes first, and a prefix before the longer text. */
  lemma {:induction false} BeforeExactly(a: string, b: string)
    ensures Before(a, b) <==>
            || (|a| < |b| && b[..|a|] == a)
            || (exists i :: 0 <= i < |a| && i < |b| && a[..i] == b[..i] && a[i] < b[i])
  {
    forall i | 0 < i <= |a| && i <= |b| && a[..i] == b[..i] ensures a[0] == b[0] {
      assert a[..i][0] == b[..i][0];
    }
    assert a[..|a|] == a;
    if a != "" && b != "" && a[0] == b[0] {
      BeforeExactly(a[1..], b[1..]);
      assert a == [a[0]] + a[1..] && b == [b[0]] + b[1..];
      if |a| < |b| {
        assert b[..|a|] == [b[0]] + b[1..][..|a| - 1];
      }
      if i :| 0 <= i < |a[1..]| && i < |b[1..]| && a[1..][..i] == b[1..][..i] && a[1..][i] < b[1..][i] {
        assert a[..i + 1] == [a[0]] + a[1..][..i] && b[..i + 1] == [b[0]] + b[1..][..i];
        assert a[i + 1] < b[i + 1];
      }
      if i :| 0 <= i < |a| && i < |b| && a[..i] == b[..i] && a[i] < b[i] {
        assert a[1..][..i - 1] == a[..i][1..] && b[1..][..i - 1] == b[..i][1..];
        assert a[1..][i - 1] < b[1..][i - 1];
      }
    } else if a != "" && b != "" {
      assert a[..0] == b[..0];
    }
  }

  // ---------------------------------------------------------------- what the hints and the relay map write

  lemma {:induction false} HintedPeersExactly(hints: seq<BootstrapHint>, e: PeerInspection)
    ensures e in HintPeers(hints) <==>
            && e.source == FromBootstrap && e.lastSeen == None
            && exists h :: h in hints && h.peer == Some(e.peer) && h.addresses == e.addresses
  {
    if hints != [] {
      HintedPeersExactly(hints[1..], e);
      assert hints == [hints[0]] + hints[1..];
    }
  }

  predicate LastAt(entries: seq<PeerInspection>, i: nat, peer: PeerId) {
    i < |entries| && entries[i].peer == peer && forall j :: i < j < |entries| ==> entries[j].peer != peer
  }

  lemma {:induction false} UnputStays(store: seq<PeerInspection>, entries: seq<PeerInspection>, peer: PeerId)
    requires SortedPeers(store) && forall e :: e in entries ==> e.peer != peer
    ensures FindPeer(PutPeers(store, entries), peer) == FindPeer(store, peer)
    decreases |entries|
  {
    hide SortedPeers, FindPeer, PutPeer;
    if entries != [] {
      PutPeerSorted(store, entries[0]);
      assert entries[0] in entries;
      UnputStays(PutPeer(store, entries[0]), entries[1..], peer);
    }
  }

  lemma RestIsOther(entries: seq<PeerInspection>, peer: PeerId)
    requires LastAt(entries, 0, peer)
    ensures forall e :: e in entries[1..] ==> e.peer != peer
  {
    forall e | e in entries[1..] ensures e.peer != peer {
      var j :| 0 <= j < |entries| - 1 && entries[1..][j] == e;
      assert entries[j + 1] == e;
    }
  }

  /** Putting entries one after the other: the last one of a peer stays. */
  lemma {:induction false} LastPutStays(store: seq<PeerInspection>, entries: seq<PeerInspection>, peer: PeerId, i: nat)
    requires SortedPeers(store) && LastAt(entries, i, peer)
    ensures FindPeer(PutPeers(store, entries), peer) == Some(entries[i])
    decreases |entries|
  {
    hide SortedPeers, FindPeer, PutPeer;
    var next := PutPeer(store, entries[0]);
    PutPeerSorted(store, entries[0]);
    if i == 0 {
      RestIsOther(entries, peer);
      UnputStays(next, entries[1..], peer);
    } else {
      assert LastAt(entries[1..], i - 1, peer);
      LastPutStays(next, entries[1..], peer, i - 1);
    }
  }

  predicate LastAnnounced(relays: seq<RelayAnnouncement>, i: nat, peer: PeerId) {
    i < |relays| && relays[i].peer == peer && forall j :: i < j < |relays| ==> relays[j].peer != peer
  }

  /** The relay map writes, for each announced peer, what its last announcement says and when the map was made. */
  lemma RelayPeersOnFields(m: RelayMap, peer: PeerId)
    ensures FindPeer(RelayPeers(m), peer).Some? <==> exists r :: r in m.relays && r.peer == peer
    ensures forall i: nat :: LastAnnounced(m.relays, i, peer) ==>
              FindPeer(RelayPeers(m), peer)
              == Some(PeerInspection(peer, m.relays[i].advertisedEndpoints, FromRelayMap, Some(m.generatedAt)))
  {
    hide FindPeer, RelayPeers;
    forall i: nat | LastAnnounced(m.relays, i, peer)
      ensures FindPeer(RelayPeers(m), peer)
           == Some(PeerInspection(peer, m.relays[i].advertisedEndpoints, FromRelayMap, Some(m.generatedAt)))
    {
      AnnouncedPeer(m, peer, i);
    }
    if exists r :: r in m.relays && r.peer == peer {
      var i := LastOf(m.relays, peer);
    } else {
      UnannouncedPeer(m, peer);
    }
  }

  lemma AnnouncedPeer(m: RelayMap, peer: PeerId, i: nat)
    requires LastAnnounced(m.relays, i, peer)
    ensures FindPeer(RelayPeers(m), peer)
         == Some(PeerInspection(peer, m.relays[i].advertisedEndpoints, FromRelayMap, Some(m.generatedAt)))
  {
    var entries := seq(|m.relays|, i requires 0 <= i < |m.relays| => RelayPeer(m.relays[i], m.generatedAt));
    NoPeersSorted();
    assert LastAt(entries, i, peer);
    LastPutStays([], entries, peer, i);
    hide FindPeer, PutPeers, SortedPeers;
  }

  lemma UnannouncedPeer(m: RelayMap, peer: PeerId)
    requires forall r :: r in m.relays ==> r.peer != peer
    ensures FindPeer(RelayPeers(m), peer) == None
  {
    var entries := seq(|m.relays|, i requires 0 <= i < |m.relays| => RelayPeer(m.relays[i], m.generatedAt));
    NoPeersSorted();
    UnputStays([], entries, peer);
    hide PutPeers, SortedPeers;
  }

  lemma {:induction false} LastOf(relays: seq<RelayAnnouncement>, peer: PeerId) returns (i: nat)
    requires exists r :: r in relays && r.peer == peer
    ensures LastAnnounced(relays, i, peer)
  {
    var last := |relays| - 1;
    if relays[last].peer == peer {
      i := last;
    } else {
      assert relays == relays[..last] + [relays[last]];
      i := LastOf(relays[..last], peer);
    }
  }

  /**
   Refreshing a store: a peer that is not written keeps its record; a known one keeps all but its addresses,
   which become the last ones written; a new one gets its first entry, also with the last addresses written.
   */
  lemma {:induction false} RefreshOnFields(store: seq<PeerInspection>, entries: seq<PeerInspection>, peer: PeerId, i: nat, k: nat)
    requires SortedPeers(store) && LastAt(entries, i, peer) && PeerAt(entries, k, peer)
    ensures var (was, now) := (FindPeer(store, peer), FindPeer(RefreshPeers(store, entries), peer));
            && now.Some? && now.value.addresses == entries[i].addresses
            && (was.Some? ==> now.value == was.value.(addresses := entries[i].addresses))
            && (was.None? ==> now.value == entries[k].(addresses := entries[i].addresses))
    decreases |entries|
  {
    R.FoundIsIn(store, entries[0].peer);
    hide SortedPeers, FindPeer, PutPeer;
    var next := PutPeer(store, Refreshed(store, entries[0]));
    PutPeerSorted(store, Refreshed(store, entries[0]));
    if i == 0 {
      RestIsOther(entries, peer);
      OthersUntouched(next, entries[1..], peer);
    } else {
      assert LastAt(entries[1..], i - 1, peer);
      var first := FirstOf(entries[1..], peer, i - 1);
      RefreshOnFields(next, entries[1..], peer, i - 1, first);
      if k > 0 {
        assert PeerAt(entries[1..], k - 1, peer);
        assert k - 1 == first;
      }
    }
  }

  lemma {:induction false} FirstOf(entries: seq<PeerInspection>, peer: PeerId, i: nat) returns (k: nat)
    requires i < |entries| && entries[i].peer == peer
    ensures PeerAt(entries, k, peer)
  {
    if entries[0].peer == peer {
      k := 0;
    } else {
      var later := FirstOf(entries[1..], peer, i - 1);
      k := later + 1;
    }
  }

  lemma {:induction false} OthersUntouched(store: seq<PeerInspection>, entries: seq<PeerInspection>, peer: PeerId)
    requires SortedPeers(store) && forall e :: e in entries ==> e.peer != peer
    ensures FindPeer(RefreshPeers(store, entries), peer) == FindPeer(store, peer)
    decreases |entries|
  {
    hide SortedPeers, FindPeer, PutPeer;
    if entries != [] {
      R.FoundIsIn(store, entries[0].peer);
      PutPeerSorted(store, Refreshed(store, entries[0]));
      assert entries[0] in entries;
      OthersUntouched(PutPeer(store, Refreshed(store, entries[0])), entries[1..], peer);
    }
  }
}
