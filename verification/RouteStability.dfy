/**
 Routes across a sync that reports no change. The report compares hints and relays by peer, so the
 addresses and endpoints under a peer can move unseen; here is what then happens to the planned routes.
 */
module RouteStability {
  import opened Model
  import opened Policy
  import opened Routing
  import opened SnapshotMerge
  import opened DurableState
  import opened DurableProofs
  import T = Transport

  // ---------------------------------------------------------------- the sorted store

  lemma BeforeExcludes(a: string, b: string)
    requires Before(a, b)
    ensures a != b && !Before(b, a)
  {
    BeforeIsStrict(a, b, a);
  }

  lemma SortedTail(store: seq<PeerInspection>)
    requires SortedPeers(store) && store != []
    ensures SortedPeers(store[1..])
    ensures FindPeer(store[1..], store[0].peer).None?
  {
    forall p | p in store[1..] ensures p.peer != store[0].peer {
      var i :| 0 <= i < |store| - 1 && store[1..][i] == p;
      assert store[i + 1] == p;
      BeforeExcludes(store[0].peer, p.peer);
    }
    FoundIsIn(store[1..], store[0].peer);
  }

  lemma {:induction false} FoundIsIn(store: seq<PeerInspection>, peer: PeerId)
    ensures FindPeer(store, peer).Some? <==> exists p :: p in store && p.peer == peer
    ensures FindPeer(store, peer).Some? ==> FindPeer(store, peer).value in store && FindPeer(store, peer).value.peer == peer
  {
    if store != [] {
      FoundIsIn(store[1..], peer);
      assert store == [store[0]] + store[1..];
    }
  }

  /** Writing the entry of a known peer goes to its place. */
  lemma PutGoesOn(store: seq<PeerInspection>, entry: PeerInspection)
    requires SortedPeers(store) && FindPeer(store, entry.peer).Some? && store[0].peer != entry.peer
    ensures FindPeer(store[1..], entry.peer).Some? && PutPeer(store, entry) == [store[0]] + PutPeer(store[1..], entry)
  {
    var rest := store[1..];
    FoundIsIn(rest, entry.peer);
    var known := FindPeer(rest, entry.peer).value;
    var i :| 0 <= i < |rest| && rest[i] == known;
    assert store[i + 1] == known;
    BeforeExcludes(store[0].peer, entry.peer);
  }

  lemma IdsCons(first: PeerInspection, rest: seq<PeerInspection>)
    ensures Ids([first] + rest) == [first.peer] + Ids(rest)
  {
  }

  /** It moves no peer, and changes nothing when the entry is the one on record. */
  lemma {:induction false} PutKnown(store: seq<PeerInspection>, entry: PeerInspection)
    requires SortedPeers(store) && FindPeer(store, entry.peer).Some?
    ensures Ids(PutPeer(store, entry)) == Ids(store)
    ensures FindPeer(store, entry.peer) == Some(entry) ==> PutPeer(store, entry) == store
  {
    var first, rest := store[0], store[1..];
    assert store == [first] + rest;
    SortedTail(store);
    if first.peer != entry.peer {
      PutGoesOn(store, entry);
    }
    hide SortedPeers, Before, Ids;
    if first.peer != entry.peer {
      PutKnown(rest, entry);
      IdsCons(first, PutPeer(rest, entry));
    } else {
      IdsCons(entry, rest);
    }
    IdsCons(first, rest);
  }

  function Ids(store: seq<PeerInspection>): seq<PeerId> {
    seq(|store|, i requires 0 <= i < |store| => store[i].peer)
  }

  /** Rebuilding a sorted store entry by entry gives it back. */
  lemma {:induction false} Rebuilt(front: seq<PeerInspection>, rest: seq<PeerInspection>)
    requires SortedPeers(front + rest)
    ensures PutPeers(front, rest) == front + rest
    decreases |rest|
  {
    if rest == [] {
      assert front + rest == front;
    } else {
      var whole := front + rest;
      forall i | 0 <= i < |front| ensures Before(front[i].peer, rest[0].peer) {
        assert whole[i] == front[i] && whole[|front|] == rest[0];
      }
      PutLast(front, rest[0]);
      assert front + [rest[0]] + rest[1..] == whole;
      Rebuilt(front + [rest[0]], rest[1..]);
    }
  }

  lemma {:induction false} PutLast(front: seq<PeerInspection>, entry: PeerInspection)
    requires forall i :: 0 <= i < |front| ==> Before(front[i].peer, entry.peer)
    ensures PutPeer(front, entry) == front + [entry]
  {
    if front != [] {
      BeforeExcludes(front[0].peer, entry.peer);
      PutLast(front[1..], entry);
      assert front == [front[0]] + front[1..];
    }
  }

  /** Two sorted stores with the same entry for every peer are the same. */
  lemma {:induction false} SameEntries(a: seq<PeerInspection>, b: seq<PeerInspection>)
    requires SortedPeers(a) && SortedPeers(b) && Ids(a) == Ids(b)
    requires forall peer :: FindPeer(a, peer) == FindPeer(b, peer)
    ensures a == b
  {
    assert |Ids(a)| == |a| && |Ids(b)| == |b|;
    if a != [] {
      assert Ids(a)[0] == a[0].peer && Ids(b)[0] == b[0].peer;
      SortedTail(a);
      SortedTail(b);
      assert FindPeer(a, a[0].peer) == FindPeer(b, a[0].peer);
      assert Ids(a) == [a[0].peer] + Ids(a[1..]) && Ids(b) == [b[0].peer] + Ids(b[1..]);
      assert Ids(a[1..]) == Ids(a)[1..] && Ids(b[1..]) == Ids(b)[1..];
      forall peer ensures FindPeer(a[1..], peer) == FindPeer(b[1..], peer) {
        assert FindPeer(a, peer) == FindPeer(b, peer);
      }
      SameEntries(a[1..], b[1..]);
      assert a == [a[0]] + a[1..] && b == [b[0]] + b[1..];
    }
  }

  // ---------------------------------------------------------------- refreshing

  /** The addresses that a refresh writes last for the peer. */
  function LastWritten(entries: seq<PeerInspection>, peer: PeerId): Option<seq<string>> {
    if entries == [] then None
    else if entries[|entries| - 1].peer == peer then Some(entries[|entries| - 1].addresses)
    else LastWritten(entries[..|entries| - 1], peer)
  }

  lemma {:induction false} RefreshAppend(store: seq<PeerInspection>, a: seq<PeerInspection>, b: seq<PeerInspection>)
    ensures RefreshPeers(store, a + b) == RefreshPeers(RefreshPeers(store, a), b)
    decreases |a|
  {
    hide PutPeer, Refreshed;
    if a == [] {
      assert a + b == b;
    } else {
      assert (a + b)[1..] == a[1..] + b;
      RefreshAppend(PutPeer(store, Refreshed(store, a[0])), a[1..], b);
    }
  }

  predicate AllKnown(store: seq<PeerInspection>, entries: seq<PeerInspection>) {
    forall e :: e in entries ==> FindPeer(store, e.peer).Some?
  }

  /** Refreshing known peers replaces addresses, each by those written last, and nothing else. */
  lemma {:induction false} RefreshKnown(store: seq<PeerInspection>, entries: seq<PeerInspection>)
    requires SortedPeers(store) && AllKnown(store, entries)
    ensures var after := RefreshPeers(store, entries);
            && SortedPeers(after) && Ids(after) == Ids(store)
            && forall peer :: FindPeer(after, peer) ==
                 match LastWritten(entries, peer)
                 case None => FindPeer(store, peer)
                 case Some(addresses) =>
                   (match FindPeer(store, peer) case None => None case Some(known) => Some(known.(addresses := addresses)))
    decreases |entries|
  {
    hide Before, SortedPeers;
    if entries != [] {
      var front, last := entries[..|entries| - 1], entries[|entries| - 1];
      assert entries == front + [last];
      assert last in entries;
      RefreshKnown(store, front);
      RefreshAppend(store, front, [last]);
      var middle := RefreshPeers(store, front);
      assert [last][1..] == [];
      assert RefreshPeers(middle, [last]) == PutPeer(middle, Refreshed(middle, last));
      FoundIsIn(middle, last.peer);
      PutPeerSorted(middle, Refreshed(middle, last));
      PutKnown(middle, Refreshed(middle, last));
    }
  }

  /** Every written peer is on record with the addresses that are written last for it. */
  predicate RecordsFit(store: seq<PeerInspection>, entries: seq<PeerInspection>) {
    forall e :: e in entries ==>
      FindPeer(store, e.peer).Some? && Some(FindPeer(store, e.peer).value.addresses) == LastWritten(entries, e.peer)
  }

  lemma {:induction false} WrittenIsEntry(entries: seq<PeerInspection>, peer: PeerId)
    ensures LastWritten(entries, peer).Some? <==> exists e :: e in entries && e.peer == peer
  {
    if entries != [] {
      var front, last := entries[..|entries| - 1], entries[|entries| - 1];
      assert entries == front + [last];
      WrittenIsEntry(front, peer);
    }
  }

  /** A refresh of known peers leaves the store as it is exactly when the records fit. */
  lemma RefreshKeepsExactly(store: seq<PeerInspection>, entries: seq<PeerInspection>)
    requires SortedPeers(store) && AllKnown(store, entries)
    ensures RefreshPeers(store, entries) == store <==> RecordsFit(store, entries)
  {
    RefreshKnown(store, entries);
    hide RefreshPeers, SortedPeers, FindPeer, Ids, LastWritten;
    forall peer ensures LastWritten(entries, peer).Some? <==> exists e :: e in entries && e.peer == peer {
      WrittenIsEntry(entries, peer);
    }
    var after := RefreshPeers(store, entries);
    if RecordsFit(store, entries) {
      forall peer ensures FindPeer(after, peer) == FindPeer(store, peer) {
        if LastWritten(entries, peer).Some? {
          var e :| e in entries && e.peer == peer;
        }
      }
      SameEntries(after, store);
    } else {
      var e :| e in entries && Some(FindPeer(store, e.peer).value.addresses) != LastWritten(entries, e.peer);
      assert FindPeer(after, e.peer) != FindPeer(store, e.peer);
    }
  }

  // ---------------------------------------------------------------- what a sync writes

  predicate OlderMap(state: DaemonState, relayMap: RelayMap) {
    state.relayMap.Some? && state.relayMap.value.version > relayMap.version
  }

  function MapAfter(state: DaemonState, relayMap: RelayMap): Option<RelayMap> {
    if OlderMap(state, relayMap) then state.relayMap else Some(relayMap)
  }

  /** The peer entries that a sync writes: those of the hints, then those of the relay map unless it is older. */
  function Written(state: DaemonState, snapshot: AuthoritySnapshot, relayMap: RelayMap): seq<PeerInspection> {
    HintPeers(snapshot.hints) + if OlderMap(state, relayMap) then [] else RelayPeers(relayMap)
  }

  /** The candidates that the sync would compute from the new hints and relays are the present ones. */
  predicate SameCandidates(state: DaemonState, snapshot: AuthoritySnapshot, relayMap: RelayMap) {
    Synthesized(state.(bootstrap := snapshot.hints, relayMap := MapAfter(state, relayMap))) == Synthesized(state)
  }

  /** A sync of the existing state that is accepted and reports no change. */
  predicate Quiet(state: DaemonState, network: string, snapshot: AuthoritySnapshot, relayMap: RelayMap) {
    var outcome := SyncOrigin(Some(state), network, snapshot, relayMap);
    outcome.Ok? && !RequiresReevaluation(outcome.value.1)
  }

  function Synced(state: DaemonState, network: string, snapshot: AuthoritySnapshot, relayMap: RelayMap): DaemonState
    requires Quiet(state, network, snapshot, relayMap)
  {
    SyncOrigin(Some(state), network, snapshot, relayMap).value.0
  }

  lemma {:induction false} FallbacksByIds(a: seq<PeerInspection>, b: seq<PeerInspection>, relays: seq<RelayAnnouncement>,
                                          netcheck: Netcheck)
    requires Ids(a) == Ids(b)
    ensures AllFallbacks(a, relays, netcheck) == AllFallbacks(b, relays, netcheck)
  {
    hide FallbackCandidates, IsRelayPeer;
    assert |Ids(a)| == |a| && |Ids(b)| == |b|;
    if a != [] {
      assert Ids(a)[0] == a[0].peer && Ids(b)[0] == b[0].peer;
      assert Ids(a[1..]) == Ids(a)[1..] && Ids(b[1..]) == Ids(b)[1..];
      FallbacksByIds(a[1..], b[1..], relays, netcheck);
    }
  }

  /** The synthesized candidates do not depend on addresses of peers. */
  lemma SynthesizedByIds(a: DaemonState, b: DaemonState)
    requires a.bootstrap == b.bootstrap && a.relayMap == b.relayMap && a.netcheck == b.netcheck && Ids(a.peers) == Ids(b.peers)
    ensures Synthesized(a) == Synthesized(b)
  {
    if a.relayMap.Some? {
      FallbacksByIds(a.peers, b.peers, a.relayMap.value.relays, a.netcheck);
    }
    hide AllFallbacks, DirectRelayCandidates, BootstrapCandidates, Ids;
  }

  lemma MergedFrom(state: DaemonState, observed: seq<PathCandidate>)
    requires Observed(state.pathCandidates) == observed
    ensures MergedPathCandidates(state) == PushAllUnique(observed, Synthesized(state))
  {
  }

  lemma ObservedOfRecached(state: DaemonState)
    ensures Observed(Recached(state).pathCandidates) == Observed(state.pathCandidates)
  {
    MergedShape(state);
  }

  /** The state between the two halves of a quiet sync. */
  lemma SnapshotHalf(state: DaemonState, network: string, snapshot: AuthoritySnapshot, relayMap: RelayMap)
    requires CachesAgree(state) && Quiet(state, network, snapshot, relayMap)
    ensures SyncAuthority(state, snapshot).Ok?
    ensures var middle := SyncAuthority(state, snapshot).value.0;
            && middle.peers == RefreshPeers(state.peers, HintPeers(snapshot.hints))
            && middle.bootstrap == snapshot.hints && middle.relayMap == state.relayMap && middle.netcheck == state.netcheck
            && middle.localPeer == state.localPeer && Observed(middle.pathCandidates) == Observed(state.pathCandidates)
            && middle.pathCandidates == MergedPathCandidates(middle)
            && Synced(state, network, snapshot, relayMap) == ApplyRelayMap(middle, relayMap).0
            && ApplyRelayMap(middle, relayMap).1 == 0
  {
    assert [] + state.peers == state.peers;
    Rebuilt([], state.peers);
    var outcome := MergeSnapshot(state.network, Some(AuthoritySnapshotOf(state)), snapshot);
    var merged := outcome.value.0;
    hide MergedPathCandidates, DeniedPeers, RefreshPeers, PutPeers, HintPeers, Observed, ApplyRelayMap, SortedPeers,
         AppendRevocations, NewGrants, NewHints, ConflictingGrants;
    assert merged.membership == Some(state.membership);
    var before := state.(
      localPeer := state.membership.subject, membership := state.membership, grants := merged.grants,
      revocations := merged.revocations, denied := DeniedPeers(state.membership, merged.revocations),
      bootstrap := merged.hints, peers := RefreshPeers(state.peers, HintPeers(merged.hints)));
    assert SyncAuthority(state, snapshot).value.0 == Recached(before);
    ObservedOfRecached(before);
    MergeIdempotent(before);
  }

  /** Peers, candidates and relays after a quiet sync that only writes known peers. */
  lemma SyncedFields(state: DaemonState, network: string, snapshot: AuthoritySnapshot, relayMap: RelayMap)
    requires CachesAgree(state) && Quiet(state, network, snapshot, relayMap)
    requires AllKnown(state.peers, Written(state, snapshot, relayMap))
    ensures var after := Synced(state, network, snapshot, relayMap);
            && after.peers == RefreshPeers(state.peers, Written(state, snapshot, relayMap))
            && after.relayMap == MapAfter(state, relayMap) && after.localPeer == state.localPeer
            && (SameCandidates(state, snapshot, relayMap) ==> after.pathCandidates == state.pathCandidates)
  {
    SnapshotHalf(state, network, snapshot, relayMap);
    var middle := SyncAuthority(state, snapshot).value.0;
    var hinted, written := HintPeers(snapshot.hints), Written(state, snapshot, relayMap);
    var after := Synced(state, network, snapshot, relayMap);
    assert state.pathCandidates == MergedPathCandidates(state) && SortedPeers(state.peers);
    assert forall e :: e in hinted ==> e in written;
    hide SyncAuthority, Synced, Quiet, CachesAgree, RefreshPeers, HintPeers, RelayPeers, SortedPeers, FindPeer, Ids,
         Synthesized, Observed, PutPeers, PushAllUnique;
    RefreshKnown(state.peers, written);
    var mapped := state.(bootstrap := snapshot.hints, relayMap := MapAfter(state, relayMap));
    if OlderMap(state, relayMap) {
      assert written == hinted by {
        assert hinted + [] == hinted;
      }
      assert after == middle;
    } else {
      RefreshKnown(state.peers, hinted);
      assert [] + middle.peers == middle.peers;
      Rebuilt([], middle.peers);
      RefreshAppend(state.peers, hinted, RelayPeers(relayMap));
      var joined := middle.(relayMap := Some(relayMap), peers := RefreshPeers(middle.peers, RelayPeers(relayMap)));
      assert after == Recached(joined);
      MergedFrom(joined, Observed(state.pathCandidates));
    }
    SynthesizedByIds(after, mapped);
    MergedFrom(state, Observed(state.pathCandidates));
    if OlderMap(state, relayMap) {
      MergedFrom(middle, Observed(state.pathCandidates));
    } else {
      SynthesizedByIds(middle.(relayMap := Some(relayMap), peers := after.peers), mapped);
    }
  }

  // ---------------------------------------------------------------- the routes

  function NewAddresses(state: DaemonState, entries: seq<PeerInspection>, peer: PeerId): seq<string> {
    match LastWritten(entries, peer)
    case Some(addresses) => addresses
    case None => (match FindPeer(state.peers, peer) case None => [] case Some(known) => known.addresses)
  }

  function RelaysOf(relayMap: Option<RelayMap>): seq<RelayAnnouncement> {
    match relayMap case None => [] case Some(m) => m.relays
  }

  /** The new addresses and relays give the same endpoints, and the same relay plan if the route has one. */
  predicate Reproduces(state: DaemonState, entries: seq<PeerInspection>, relays: seq<RelayAnnouncement>, route: T.RoutePlan) {
    && RouteEndpoints(NewAddresses(state, entries, route.peer), route.pathKind) == route.remoteEndpoints
    && (route.relay.Some? ==>
          var relayPeer := route.relay.value.relayPeer;
          && FindRelay(relays, relayPeer).Some?
          && RelayPlanFor(FindRelay(relays, relayPeer).value, relayPeer, route.remoteEndpoints) == route.relay.value)
  }

  lemma {:induction false} FindRelayIn(relays: seq<RelayAnnouncement>, peer: PeerId)
    ensures FindRelay(relays, peer).Some? <==> IsRelayPeer(relays, peer)
  {
    if relays != [] {
      FindRelayIn(relays[1..], peer);
      assert relays == [relays[0]] + relays[1..];
    }
  }

  /** A quiet sync brings no relay that was not announced before. */
  lemma NoNewRelay(state: DaemonState, network: string, snapshot: AuthoritySnapshot, relayMap: RelayMap, peer: PeerId)
    requires CachesAgree(state) && Quiet(state, network, snapshot, relayMap)
    ensures FindRelay(RelaysOf(MapAfter(state, relayMap)), peer).Some? ==> FindRelay(Announcements(state), peer).Some?
  {
    SnapshotHalf(state, network, snapshot, relayMap);
    var middle := SyncAuthority(state, snapshot).value.0;
    RelayCountExactly(middle, relayMap);
    hide SyncAuthority, Quiet, CachesAgree, Synced, ApplyRelayMap, FindRelay;
    FindRelayIn(RelaysOf(MapAfter(state, relayMap)), peer);
    FindRelayIn(Announcements(state), peer);
  }

  lemma PlanFrom(a: DaemonState, b: DaemonState, peer: PeerId, protocol: Option<ProtocolId>, class_: TrafficClass,
                 entries: seq<PeerInspection>)
    requires a.pathCandidates == b.pathCandidates && a.localPeer == b.localPeer
    requires FindPeer(b.peers, peer) ==
             match FindPeer(a.peers, peer)
             case None => None
             case Some(known) => Some(known.(addresses := NewAddresses(a, entries, peer)))
    requires forall relayPeer :: FindRelay(Announcements(b), relayPeer).Some? ==> FindRelay(Announcements(a), relayPeer).Some?
    ensures PlanRoute(b, peer, protocol, class_) == PlanRoute(a, peer, protocol, class_) <==>
            || PlanRoute(a, peer, protocol, class_).Err?
            || Reproduces(a, entries, Announcements(b), PlanRoute(a, peer, protocol, class_).value)
  {
    assert BestPath(a, peer, class_) == BestPath(b, peer, class_);
    hide BestPath, FindPeer, FindRelay, Announcements, RouteEndpoints, DirectKind, NewAddresses;
  }

  /**
   Which routes survive a quiet sync. When the sync writes known peers only and leaves the candidates as they
   are, a planned route is the same afterwards if and only if the addresses and the relay announcement that
   it is built from yield the same endpoints and relay plan. Where there was no route, there is none.
   */
  lemma RouteKeptExactly(state: DaemonState, network: string, snapshot: AuthoritySnapshot, relayMap: RelayMap, peer: PeerId,
                         protocol: Option<ProtocolId>, class_: TrafficClass)
    requires CachesAgree(state) && Quiet(state, network, snapshot, relayMap)
    requires AllKnown(state.peers, Written(state, snapshot, relayMap)) && SameCandidates(state, snapshot, relayMap)
    ensures var before := PlanRoute(state, peer, protocol, class_);
            PlanRoute(Synced(state, network, snapshot, relayMap), peer, protocol, class_) == before <==>
            || before.Err?
            || Reproduces(state, Written(state, snapshot, relayMap), RelaysOf(MapAfter(state, relayMap)), before.value)
  {
    var after, entries := Synced(state, network, snapshot, relayMap), Written(state, snapshot, relayMap);
    SyncedFields(state, network, snapshot, relayMap);
    RefreshKnown(state.peers, entries);
    forall relayPeer | FindRelay(Announcements(after), relayPeer).Some?
      ensures FindRelay(Announcements(state), relayPeer).Some?
    {
      NoNewRelay(state, network, snapshot, relayMap, relayPeer);
    }
    hide Synced, Quiet, CachesAgree, Written, SameCandidates, PlanRoute, Reproduces, RefreshPeers, FindRelay, FindPeer,
         SortedPeers, Ids;
    PlanFrom(state, after, peer, protocol, class_, entries);
  }

  /** The hints and the relays that the sync brings are those that the state has. */
  predicate SameSources(state: DaemonState, snapshot: AuthoritySnapshot, relayMap: RelayMap) {
    && snapshot.hints == state.bootstrap
    && (OlderMap(state, relayMap) || (state.relayMap.Some? && state.relayMap.value.relays == relayMap.relays))
  }

  lemma SameSourcesSameCandidates(state: DaemonState, snapshot: AuthoritySnapshot, relayMap: RelayMap)
    requires SameSources(state, snapshot, relayMap)
    ensures SameCandidates(state, snapshot, relayMap) && RelaysOf(MapAfter(state, relayMap)) == Announcements(state)
  {
    hide BootstrapCandidates, AllFallbacks, DirectRelayCandidates;
  }

  /**
   A condition that can be checked before the sync and keeps every route: the hints and relays are those on
   record, and so is every address list that the sync writes. It need not hold for the routes to stay.
   */
  lemma RoutesUnchanged(state: DaemonState, network: string, snapshot: AuthoritySnapshot, relayMap: RelayMap, peer: PeerId,
                        protocol: Option<ProtocolId>, class_: TrafficClass)
    requires CachesAgree(state) && Quiet(state, network, snapshot, relayMap)
    requires SameSources(state, snapshot, relayMap) && RecordsFit(state.peers, Written(state, snapshot, relayMap))
    ensures var after := Synced(state, network, snapshot, relayMap);
            after.peers == state.peers && PlanRoute(after, peer, protocol, class_) == PlanRoute(state, peer, protocol, class_)
  {
    var after, entries := Synced(state, network, snapshot, relayMap), Written(state, snapshot, relayMap);
    SyncedFields(state, network, snapshot, relayMap);
    SameSourcesSameCandidates(state, snapshot, relayMap);
    RefreshKeepsExactly(state.peers, entries);
    assert after.pathCandidates == state.pathCandidates && after.peers == state.peers;
    assert Announcements(after) == Announcements(state);
    assert BestPath(after, peer, class_) == BestPath(state, peer, class_);
    hide Synced, Quiet, CachesAgree, Written, SameCandidates, RefreshPeers, FindRelay, FindPeer, BestPath, RouteEndpoints,
         Announcements, RecordsFit, SameSources;
  }

  // ---------------------------------------------------------------- routes that move unseen

  const MEMBER := MembershipCertificate("n", "l", "authority", 0, 1, [], "")
  const CLEAN := DaemonState("n", "l", MEMBER, [], [], [], [], None, [], PENDING_NETCHECK, [])

  function SameArtifacts(hints: seq<BootstrapHint>): AuthoritySnapshot {
    AuthoritySnapshot("n", None, Some(MEMBER), [], [], hints)
  }

  /** Syncing what the state has, but for hints under the same peers and a map of known relays, is quiet. */
  lemma SyncIsQuiet(state: DaemonState, hints: seq<BootstrapHint>, relayMap: RelayMap)
    requires state.network == "n" && state.membership == MEMBER && state.grants == [] && state.revocations == []
    requires NewHints(state.bootstrap, hints) == [] && NewHints(hints, state.bootstrap) == []
    requires forall r :: r in relayMap.relays ==> IsRelayPeer(Announcements(state), r.peer)
    ensures Quiet(state, "n", SameArtifacts(hints), relayMap)
  {
    var merged := MergeSnapshot(state.network, Some(AuthoritySnapshotOf(state)), SameArtifacts(hints));
    assert merged.Ok? && merged.value.1 == ZERO_DELTA;
    var middle := SyncAuthority(state, SameArtifacts(hints)).value.0;
    assert Announcements(middle) == Announcements(state);
    RelayCountExactly(middle, relayMap);
    hide NewHints, MergedPathCandidates, DeniedPeers, PutPeers, RefreshPeers, ApplyRelayMap, IsRelayPeer, HintPeers,
         MergeSnapshot;
  }

  /** One address gives that address, whatever the kind of path. */
  lemma OneEndpoint(address: string, kind: PathKind)
    ensures RouteEndpoints([address], kind) == [address]
  {
    var keep := (a: string) => MatchesPathKind(a, kind);
    if MatchesPathKind(address, kind) {
      FilterAll([address], keep);
    } else {
      FilterNone([address], keep);
    }
  }

  lemma PlainAddress(address: string)
    requires |address| == 1 && address[0] != ':'
    ensures !IsIpv6(address)
  {
    assert CountChar(address, ':') == 0 by {
      assert address[1..] == "";
    }
    assert forall i :: 0 <= i <= |address| ==> |address[i..]| < |"://["|;
    assert !IsIpv6(address);
  }

  // ---- by the endpoints of a relay

  function WitnessRelay(address: string): RelayAnnouncement {
    RelayAnnouncement("r", [address], "c", 0, false, false, [])
  }

  function WitnessMap(address: string): RelayMap {
    RelayMap(1, 0, [WitnessRelay(address)])
  }

  /** A state that knows one relay, as a sync would have left it. */
  function RelayState(address: string): DaemonState {
    CLEAN.(relayMap := Some(WitnessMap(address)),
           peers := [PeerInspection("r", [address], FromRelayMap, Some(0))],
           pathCandidates := [DirectRelayCandidate(WitnessRelay(address), PENDING_NETCHECK)])
  }

  lemma RelayStateSynthesizes(address: string)
    ensures Synthesized(RelayState(address)) == [DirectRelayCandidate(WitnessRelay(address), PENDING_NETCHECK)]
  {
    var state := RelayState(address);
    assert state.peers[1..] == [];
    assert WitnessRelay(address) in WitnessMap(address).relays;
    hide DirectRelayCandidate, FallbackCandidate;
    assert AllFallbacks(state.peers, WitnessMap(address).relays, PENDING_NETCHECK) == [];
  }

  lemma RelayStateAgrees(address: string)
    ensures CachesAgree(RelayState(address))
  {
    RelayStateSynthesizes(address);
    var state, c := RelayState(address), DirectRelayCandidate(WitnessRelay(address), PENDING_NETCHECK);
    FilterNone([c], (d: PathCandidate) => d.source == ObservedPath);
    MergedFrom(state, []);
    assert PushUnique([], c) == [c] && [c][1..] == [];
    hide Synthesized, DirectRelayCandidate, PushUnique, MergedPathCandidates;
    assert PushAllUnique([], [c]) == [c];
  }

  lemma ControlSupported(candidates: seq<PathCandidate>, c: PathCandidate, class_: TrafficClass)
    requires c in candidates && class_ in c.trafficClasses
    ensures SelectBestPath(candidates, class_).Some? && SelectBestPath(candidates, class_).value in candidates
  {
    SelectsFirstMinimum(candidates, class_);
    var j :| 0 <= j < |candidates| && candidates[j] == c;
    assert SupportsClass(candidates[j], class_);
    hide SelectBestPath, Score;
  }

  /** The route to the relay itself, as planned before the sync. */
  lemma RelayStateRoute(address: string)
    ensures var planned := PlanRoute(RelayState(address), "r", None, Control);
            planned.Ok? && planned.value.peer == "r" && planned.value.remoteEndpoints == [address]
  {
    var state, c := RelayState(address), DirectRelayCandidate(WitnessRelay(address), PENDING_NETCHECK);
    assert c.peer == "r" && c.pathKind != Relay && Control in c.trafficClasses;
    FilterAll([c], (d: PathCandidate) => d.peer == "r");
    assert CandidatesFor(state, "r") == [c];
    ControlSupported([c], c, Control);
    OneEndpoint(address, c.pathKind);
    hide SelectBestPath, DirectRelayCandidate, RouteEndpoints;
  }

  lemma RelayMovesSameCandidates(old_: string, new_: string)
    requires !IsIpv6(old_) && !IsIpv6(new_)
    ensures SameCandidates(RelayState(old_), SameArtifacts([]), WitnessMap(new_))
  {
    RelayStateSynthesizes(old_);
    RelayStateSynthesizes(new_);
    var mapped := RelayState(old_).(bootstrap := [], relayMap := Some(WitnessMap(new_)));
    assert Ids(mapped.peers) == Ids(RelayState(new_).peers);
    SynthesizedByIds(mapped, RelayState(new_));
    assert DirectKind([old_]) == DirectKind([new_]) == DirectUdp;
    assert MapAfter(RelayState(old_), WitnessMap(new_)) == Some(WitnessMap(new_));
    hide Synthesized, IsIpv6;
  }

  lemma MapWrites(old_: string, new_: string)
    ensures var entries := Written(RelayState(old_), SameArtifacts([]), WitnessMap(new_));
            AllKnown(RelayState(old_).peers, entries) && LastWritten(entries, "r") == Some([new_])
  {
    var m, entry := WitnessMap(new_), RelayPeer(WitnessRelay(new_), 0);
    assert seq(|m.relays|, i requires 0 <= i < |m.relays| => RelayPeer(m.relays[i], m.generatedAt)) == [entry];
    assert [entry][1..] == [] && PutPeer([], entry) == [entry];
    assert PutPeers([], [entry]) == [entry];
    assert Written(RelayState(old_), SameArtifacts([]), m) == [entry];
  }

  lemma MapMovesQuietly(old_: string, new_: string)
    ensures Quiet(RelayState(old_), "n", SameArtifacts([]), WitnessMap(new_))
  {
    assert NewHints([], []) == [];
    assert IsRelayPeer(Announcements(RelayState(old_)), "r") by {
      assert WitnessRelay(old_) in Announcements(RelayState(old_));
    }
    hide NewHints, Quiet, IsRelayPeer;
    SyncIsQuiet(RelayState(old_), [], WitnessMap(new_));
  }

  /** A relay's endpoint moves under the same peer: the sync reports no change and the route changes. */
  lemma RelayEndpointsMoveRoutes()
    ensures var state, snapshot, relayMap := RelayState("a"), SameArtifacts([]), WitnessMap("b");
            && CachesAgree(state) && Quiet(state, "n", snapshot, relayMap)
            && PlanRoute(state, "r", None, Control).Ok?
            && PlanRoute(Synced(state, "n", snapshot, relayMap), "r", None, Control) != PlanRoute(state, "r", None, Control)
  {
    var state, snapshot, relayMap := RelayState("a"), SameArtifacts([]), WitnessMap("b");
    RelayStateAgrees("a");
    RelayStateRoute("a");
    PlainAddress("a");
    PlainAddress("b");
    RelayMovesSameCandidates("a", "b");
    MapWrites("a", "b");
    MapMovesQuietly("a", "b");
    var route := PlanRoute(state, "r", None, Control).value;
    OneEndpoint("b", route.pathKind);
    hide Quiet, Synced, CachesAgree, SameCandidates, PlanRoute, Written, RouteEndpoints, RelayState, AllKnown, IsIpv6, LastWritten;
    RouteKeptExactly(state, "n", snapshot, relayMap, "r", None, Control);
  }

  // ---- by the addresses of a hint

  function WitnessHint(address: string): BootstrapHint {
    BootstrapHint(Some("p"), [address], map[])
  }

  const OBSERVED := PathCandidate("p", DirectUdp, None, ObservedPath, [Control], 0, 0, 0.0, 0, 0)
  const NO_RELAYS := RelayMap(0, 0, [])

  /** A state that knows one hinted peer, to which a path has been observed. */
  function HintState(address: string): DaemonState {
    CLEAN.(bootstrap := [WitnessHint(address)],
           peers := [PeerInspection("p", [address], FromBootstrap, None)],
           relayMap := Some(NO_RELAYS), pathCandidates := [OBSERVED])
  }

  lemma HintStateSynthesizes(address: string)
    ensures Synthesized(HintState(address)) == []
  {
    var state := HintState(address);
    assert state.peers[1..] == [];
    assert AllFallbacks(state.peers, [], PENDING_NETCHECK) == [];
  }

  lemma HintStateAgrees(address: string)
    ensures CachesAgree(HintState(address))
  {
    HintStateSynthesizes(address);
    FilterAll([OBSERVED], (d: PathCandidate) => d.source == ObservedPath);
    MergedFrom(HintState(address), [OBSERVED]);
    hide Synthesized, MergedPathCandidates;
  }

  lemma HintStateRoute(address: string)
    ensures var planned := PlanRoute(HintState(address), "p", None, Control);
            planned.Ok? && planned.value.peer == "p" && planned.value.remoteEndpoints == [address]
  {
    FilterAll([OBSERVED], (d: PathCandidate) => d.peer == "p");
    assert CandidatesFor(HintState(address), "p") == [OBSERVED];
    assert Control in OBSERVED.trafficClasses;
    ControlSupported([OBSERVED], OBSERVED, Control);
    OneEndpoint(address, DirectUdp);
    hide SelectBestPath, RouteEndpoints;
  }

  lemma HintMovesQuietly(old_: string, new_: string)
    ensures Quiet(HintState(old_), "n", SameArtifacts([WitnessHint(new_)]), NO_RELAYS)
    ensures SameCandidates(HintState(old_), SameArtifacts([WitnessHint(new_)]), NO_RELAYS)
  {
    var a, b := WitnessHint(old_), WitnessHint(new_);
    assert a in [a] && b in [b] && SameHint(a, b) && SameHint(b, a);
    FilterNone([a], (h: BootstrapHint) => !KnownHint([b], h));
    FilterNone([b], (h: BootstrapHint) => !KnownHint([a], h));
    HintStateSynthesizes(old_);
    HintStateSynthesizes(new_);
    var mapped := HintState(old_).(bootstrap := [b]);
    assert Ids(mapped.peers) == Ids(HintState(new_).peers);
    SynthesizedByIds(mapped, HintState(new_));
    assert MapAfter(HintState(old_), NO_RELAYS) == Some(NO_RELAYS);
    hide Synthesized, NewHints, Quiet;
    SyncIsQuiet(HintState(old_), [b], NO_RELAYS);
  }

  /** A hint's address moves under the same peer: the sync reports no change and the route changes. */
  lemma HintAddressesMoveRoutes()
    ensures var state, snapshot := HintState("a"), SameArtifacts([WitnessHint("b")]);
            && CachesAgree(state) && Quiet(state, "n", snapshot, NO_RELAYS)
            && PlanRoute(state, "p", None, Control).Ok?
            && PlanRoute(Synced(state, "n", snapshot, NO_RELAYS), "p", None, Control) != PlanRoute(state, "p", None, Control)
  {
    var state, snapshot := HintState("a"), SameArtifacts([WitnessHint("b")]);
    HintStateAgrees("a");
    HintStateRoute("a");
    HintMovesQuietly("a", "b");
    var entries := Written(state, snapshot, NO_RELAYS);
    assert RelayPeers(NO_RELAYS) == [];
    assert snapshot.hints[1..] == [];
    assert entries == [PeerInspection("p", ["b"], FromBootstrap, None)];
    assert LastWritten(entries, "p") == Some(["b"]);
    assert AllKnown(state.peers, entries);
    var route := PlanRoute(state, "p", None, Control).value;
    OneEndpoint("b", route.pathKind);
    hide Quiet, Synced, CachesAgree, SameCandidates, PlanRoute, Written, RouteEndpoints;
    RouteKeptExactly(state, "n", snapshot, NO_RELAYS, "p", None, Control);
  }
}
