/**
 What the durable state keeps over every run of its steps: cached fields agree with recomputation,
 revoked peers stay denied, and a sync without changes leaves every policy decision as it was.
 */
module DurableProofs {
  import opened Model
  import opened Policy
  import opened Routing
  import opened SnapshotMerge
  import opened DurableState
  import T = Transport

  // ---------------------------------------------------------------- denied peers

  predicate Denies(membership: MembershipCertificate, r: RevocationRecord, peer: PeerId) {
    || r.target == PeerTarget(peer)
    || (peer == membership.subject && r.target == MembershipTarget(peer, membership.issuedAt))
  }

  /** A peer is denied exactly when a revocation names it, or names the current certificate of its subject. */
  lemma {:induction false} DeniedExactly(membership: MembershipCertificate, revocations: seq<RevocationRecord>, peer: PeerId)
    ensures FindDenied(DeniedPeers(membership, revocations), peer).Some? <==>
            exists r :: r in revocations && Denies(membership, r, peer)
  {
    if revocations != [] {
      var first, rest := revocations[0], revocations[1..];
      DeniedExactly(membership, rest, peer);
      assert revocations == [first] + rest;
      var later := DeniedPeers(membership, rest);
      match DeniedEntry(membership, first) {
        case None => assert DeniedPeers(membership, revocations) == later;
        case Some(entry) =>
          assert DeniedPeers(membership, revocations) == [entry] + later;
          assert ([entry] + later)[1..] == later;
      }
      assert Denies(membership, first, peer) <==>
             DeniedEntry(membership, first).Some? && DeniedEntry(membership, first).value.peer == peer;
    }
  }

  // ---------------------------------------------------------------- policy decisions

  /** The whole meaning of a policy decision: not denied, and an active local grant covers the protocol. */
  lemma AllowedExactly(state: DaemonState, peer: PeerId, protocol: ProtocolId)
    ensures ExplainPolicy(state, peer, protocol).allowed <==>
            && DenyReason(state, peer).None?
            && exists g :: g in state.grants && ActiveFor(state, state.localPeer, g)
                           && Grants(g, ProtocolCapability(protocol), protocol)
  {
    var active := GrantsForPeer(state, state.localPeer);
    FilterMembers(state.grants, (g: CapabilityGrant) => ActiveFor(state, state.localPeer, g));
    assert active != [] ==> active[0] in active;
    var rule := LocalRule(state, protocol);
    assert Evaluate([rule], state.network, state.localPeer, protocol, active).allowed
      == Matches(rule, state.network, state.localPeer, protocol, active);
    hide ActiveFor, Grants;
  }

  /** The capability that a grant must name for the protocol. */
  lemma CapabilityNames(protocol: ProtocolId, other: ProtocolId)
    ensures ProtocolCapability("/quip/records/1") == "records.publish" && ProtocolCapability("/quip/control/1") == "control.access"
    ensures protocol != "/quip/records/1" && protocol != "/quip/control/1" ==> ProtocolCapability(protocol) == "protocol:" + protocol
    ensures ProtocolCapability(protocol) == ProtocolCapability(other) <==> protocol == other
  {
    assert ("protocol:" + protocol)[9..] == protocol && ("protocol:" + other)[9..] == other;
    assert ("protocol:" + protocol)[0] == 'p' && ("protocol:" + other)[0] == 'p';
    assert "records.publish"[0] == 'r' && "control.access"[0] == 'c';
  }

  /** On its fields: a grant to the local peer that no revocation names and that covers the protocol. */
  ghost predicate Covers(state: DaemonState, g: CapabilityGrant, protocol: ProtocolId) {
    && g.subject == state.localPeer
    && (forall r :: r in state.revocations ==> r.target != GrantTarget(g.subject, g.sequence))
    && ProtocolCapability(protocol) in g.capabilities && protocol in g.protocolScopes
  }

  ghost predicate Covered(state: DaemonState, protocol: ProtocolId) {
    exists g :: g in state.grants && Covers(state, g, protocol)
  }

  /** A peer is denied exactly when it has an entry, and the first one gives the reason. */
  lemma {:induction false} DenyOnFields(denied: seq<DeniedPeer>, peer: PeerId)
    ensures FindDenied(denied, peer).Some? <==> exists e :: e in denied && e.peer == peer
    ensures FindDenied(denied, peer).Some? ==> DeniedPeer(peer, FindDenied(denied, peer).value) in denied
  {
    if denied != [] {
      DenyOnFields(denied[1..], peer);
      assert denied == [denied[0]] + denied[1..];
    }
  }

  /** What a daemon allows itself: exactly the protocols that some grant covers. */
  lemma LocalPolicyOnFields(state: DaemonState, protocol: ProtocolId)
    ensures ExplainLocalPolicy(state, protocol).allowed <==> Covered(state, protocol)
  {
    var clean := state.(denied := []);
    AllowedExactly(clean, state.localPeer, protocol);
    assert FindDenied([], state.localPeer) == None;
    assert ExplainLocalPolicy(clean, protocol) == ExplainPolicy(clean, state.localPeer, protocol);
    SameLocalPolicy(clean, state, protocol);
    CoversIsActive(state, protocol);
    CoversIsActive(clean, protocol);
    hide ExplainLocalPolicy, ExplainPolicy, Covers, ActiveFor, Grants;
    assert Covered(clean, protocol) <==> Covered(state, protocol) by {
      SameCover(clean, state, protocol);
    }
  }

  lemma NoRule(network: string, peer: PeerId, protocol: ProtocolId, grants: seq<CapabilityGrant>)
    ensures Evaluate([], network, peer, protocol, grants) == Decision(false, "no matching policy rule for " + protocol)
  {
  }

  lemma OneRule(rule: PolicyRule, network: string, peer: PeerId, protocol: ProtocolId, grants: seq<CapabilityGrant>)
    requires rule.effect == Allow
    ensures Matches(rule, network, peer, protocol, grants) ==>
              Evaluate([rule], network, peer, protocol, grants) == Decision(true, "Allow" + " rule matched for " + protocol)
    ensures !Matches(rule, network, peer, protocol, grants) ==>
              Evaluate([rule], network, peer, protocol, grants) == Evaluate([], network, peer, protocol, grants)
  {
    hide Matches;
    assert [rule][1..] == [];
  }

  lemma NoGrantNoMatch(rule: PolicyRule, network: string, peer: PeerId, protocol: ProtocolId)
    requires rule.requiredCapability.Some?
    ensures !Matches(rule, network, peer, protocol, [])
  {
  }

  lemma NoneActive(state: DaemonState)
    ensures GrantsForPeer(state, state.localPeer) == [] <==> forall g :: g in state.grants ==> !ActiveFor(state, state.localPeer, g)
  {
    var keep := (g: CapabilityGrant) => ActiveFor(state, state.localPeer, g);
    FilterMembers(state.grants, keep);
    hide ActiveFor;
    if forall g :: g in state.grants ==> !ActiveFor(state, state.localPeer, g) {
      FilterNone(state.grants, keep);
    }
  }

  /** Why it refuses: that it has no active grant at all, or that no rule matched; an allowance tells how many it has. */
  lemma LocalReasons(state: DaemonState, protocol: ProtocolId)
    ensures var decision := ExplainLocalPolicy(state, protocol);
            var active := GrantsForPeer(state, state.localPeer);
            && ((forall g :: g in state.grants ==> !ActiveFor(state, state.localPeer, g)) ==>
                  decision == Decision(false, "no active capability grants for " + protocol))
            && (!decision.allowed && active != [] ==> decision.reason == "no matching policy rule for " + protocol)
            && (decision.allowed ==>
                  decision.reason == (("Allow" + " rule matched for " + protocol) + " using " + NatText(|active|)) + " active grant(s)")
  {
    NoneActive(state);
    NoGrantNoMatch(LocalRule(state, protocol), state.network, state.localPeer, protocol);
    NoRule(state.network, state.localPeer, protocol, GrantsForPeer(state, state.localPeer));
    OneRule(LocalRule(state, protocol), state.network, state.localPeer, protocol, GrantsForPeer(state, state.localPeer));
    hide GrantsForPeer, ActiveFor, NatText, Matches, Evaluate;
  }

  lemma SameCover(a: DaemonState, b: DaemonState, protocol: ProtocolId)
    requires a.grants == b.grants && a.localPeer == b.localPeer && a.revocations == b.revocations
    ensures Covered(a, protocol) <==> Covered(b, protocol)
  {
    hide ProtocolCapability;
    forall g ensures Covers(a, g, protocol) <==> Covers(b, g, protocol) {
    }
  }

  lemma CoversIsActive(state: DaemonState, protocol: ProtocolId)
    ensures Covered(state, protocol) <==>
            exists g :: g in state.grants && ActiveFor(state, state.localPeer, g)
                        && Grants(g, ProtocolCapability(protocol), protocol)
  {
    hide ProtocolCapability;
    forall g ensures Covers(state, g, protocol) <==>
                     ActiveFor(state, state.localPeer, g) && Grants(g, ProtocolCapability(protocol), protocol) {
    }
    hide Covers, ActiveFor, Grants;
  }

  lemma SameLocalPolicy(a: DaemonState, b: DaemonState, protocol: ProtocolId)
    requires a.network == b.network && a.localPeer == b.localPeer && a.grants == b.grants && a.revocations == b.revocations
    ensures ExplainLocalPolicy(a, protocol) == ExplainLocalPolicy(b, protocol)
  {
    SameFilter(a, b, a.grants);
    hide Evaluate;
  }

  lemma {:induction false} SameFilter(a: DaemonState, b: DaemonState, grants: seq<CapabilityGrant>)
    requires a.localPeer == b.localPeer && a.revocations == b.revocations
    ensures Filter(grants, (g: CapabilityGrant) => ActiveFor(a, a.localPeer, g))
         == Filter(grants, (g: CapabilityGrant) => ActiveFor(b, b.localPeer, g))
  {
    if grants != [] {
      SameFilter(a, b, grants[1..]);
    }
  }

  /** The whole meaning of a decision on the fields of the state. */
  lemma AllowedOnFields(state: DaemonState, peer: PeerId, protocol: ProtocolId)
    ensures ExplainPolicy(state, peer, protocol).allowed <==>
            (forall e :: e in state.denied ==> e.peer != peer) && Covered(state, protocol)
  {
    DenyOnFields(state.denied, peer);
    LocalPolicyOnFields(state, protocol);
    hide ExplainLocalPolicy, Covered, FindDenied;
  }

  // ---------------------------------------------------------------- candidates

  predicate AllSynthesized(candidates: seq<PathCandidate>) {
    forall c :: c in candidates ==> c.source != ObservedPath
  }

  lemma {:induction false} BootstrapIsSynthesized(hints: seq<BootstrapHint>, netcheck: Netcheck)
    ensures AllSynthesized(BootstrapCandidates(hints, netcheck))
  {
    hide BestProbeLatency;
    if hints != [] {
      BootstrapIsSynthesized(hints[1..], netcheck);
    }
  }

  lemma {:induction false} FallbacksAreSynthesized(peers: seq<PeerInspection>, relays: seq<RelayAnnouncement>, netcheck: Netcheck)
    ensures AllSynthesized(AllFallbacks(peers, relays, netcheck))
  {
    hide DirectRelayRtt, RelayThroughput, RelayTrafficClasses;
    if peers != [] {
      FallbacksAreSynthesized(peers[1..], relays, netcheck);
    }
  }

  lemma SynthesizedIsSynthesized(state: DaemonState)
    ensures AllSynthesized(Synthesized(state))
  {
    BootstrapIsSynthesized(state.bootstrap, state.netcheck);
    if state.relayMap.Some? {
      FallbacksAreSynthesized(state.peers, state.relayMap.value.relays, state.netcheck);
      DirectsAreSynthesized(state.relayMap.value.relays, state.netcheck);
    }
    hide BootstrapCandidates, DirectRelayCandidates, AllFallbacks;
  }

  lemma DirectsAreSynthesized(relays: seq<RelayAnnouncement>, netcheck: Netcheck)
    ensures AllSynthesized(DirectRelayCandidates(relays, netcheck))
  {
    hide DirectRelayRtt, RelayThroughput, RelayTrafficClasses;
  }

  ghost predicate UniqueCandidates(candidates: seq<PathCandidate>) {
    forall i, j :: 0 <= i < j < |candidates| ==> KeyOfCandidate(candidates[i]) != KeyOfCandidate(candidates[j])
  }

  /**
   The shape of the merge: the starting list stays in front, what is pushed behind it comes from the
   new list with unique keys that the front does not have, and no key of the new list is lost.
   */
  lemma {:induction false} PushAllShape(front: seq<PathCandidate>, added: seq<PathCandidate>, more: seq<PathCandidate>)
    requires UniqueCandidates(added) && (forall c :: c in added ==> !HasCandidate(front, KeyOfCandidate(c)))
    ensures var all := PushAllUnique(front + added, more);
            && front <= all
            && UniqueCandidates(all[|front|..])
            && (forall c :: c in all[|front|..] ==> (c in added || c in more) && !HasCandidate(front, KeyOfCandidate(c)))
            && (forall c :: c in more ==> HasCandidate(all, KeyOfCandidate(c)))
            && (forall c :: c in front + added ==> HasCandidate(all, KeyOfCandidate(c)))
    decreases |more|
  {
    if more == [] {
      assert (front + added)[|front|..] == added;
    } else {
      var c := more[0];
      var pushed := if HasCandidate(front + added, KeyOfCandidate(c)) then added else added + [c];
      assert PushUnique(front + added, c) == front + pushed;
      if !HasCandidate(front + added, KeyOfCandidate(c)) {
        PushedStaysUnique(front, added, c);
      }
      PushAllShape(front, pushed, more[1..]);
      assert c in more;
    }
  }

  lemma PushedStaysUnique(front: seq<PathCandidate>, added: seq<PathCandidate>, c: PathCandidate)
    requires UniqueCandidates(added) && (forall d :: d in added ==> !HasCandidate(front, KeyOfCandidate(d)))
    requires !HasCandidate(front + added, KeyOfCandidate(c))
    ensures UniqueCandidates(added + [c]) && !HasCandidate(front, KeyOfCandidate(c))
  {
    assert forall i :: 0 <= i < |added| ==> added[i] in front + added;
    assert forall d :: d in front ==> d in front + added;
  }

  /** Observed candidates come first in their order; synthesized ones follow with unique keys; none is lost. */
  lemma MergedShape(state: DaemonState)
    ensures var observed, merged := Observed(state.pathCandidates), MergedPathCandidates(state);
            && observed <= merged
            && Observed(merged) == observed
            && UniqueCandidates(merged[|observed|..])
            && (forall c :: c in merged[|observed|..] ==> c in Synthesized(state))
            && (forall c :: c in Synthesized(state) ==> HasCandidate(merged, KeyOfCandidate(c)))
  {
    var observed, merged := Observed(state.pathCandidates), MergedPathCandidates(state);
    hide Synthesized, PushAllUnique, Observed;
    SynthesizedIsSynthesized(state);
    assert observed + [] == observed;
    PushAllShape(observed, [], Synthesized(state));
    assert merged == observed + merged[|observed|..];
    ObservedOfMerged(state, observed, merged[|observed|..]);
  }

  lemma ObservedOfMerged(state: DaemonState, observed: seq<PathCandidate>, rest: seq<PathCandidate>)
    requires observed == Observed(state.pathCandidates) && AllSynthesized(rest)
    ensures Observed(observed + rest) == observed
  {
    var keep := (c: PathCandidate) => c.source == ObservedPath;
    FilterMembers(state.pathCandidates, keep);
    FilterAppend(observed, rest, keep);
    FilterAll(observed, keep);
    FilterNone(rest, keep);
  }

  /** Recomputing the cached candidates changes nothing once they have been computed. */
  lemma MergeIdempotent(state: DaemonState)
    ensures MergedPathCandidates(Recached(state)) == MergedPathCandidates(state)
    ensures Recached(Recached(state)) == Recached(state)
  {
    MergedShape(state);
    hide Observed, PushAllUnique, BootstrapCandidates, RelayCandidates;
    assert Synthesized(Recached(state)) == Synthesized(state);
  }

  // ---------------------------------------------------------------- peers

  lemma {:induction false} BeforeIsStrict(a: string, b: string, c: string)
    ensures Before(a, b) && Before(b, c) ==> Before(a, c)
    ensures a != b ==> Before(a, b) || Before(b, a)
    ensures !Before(a, a)
  {
    if a != "" {
      BeforeIsStrict(a[1..], if b == "" then "" else b[1..], if c == "" then "" else c[1..]);
      if b != "" && a[0] == b[0] && a[1..] == b[1..] {
        assert a == [a[0]] + a[1..] && b == [b[0]] + b[1..];
      }
    }
  }

  ghost predicate SortedPeers(peers: seq<PeerInspection>) {
    forall i, j :: 0 <= i < j < |peers| ==> Before(peers[i].peer, peers[j].peer)
  }

  /** Inserting keeps the store sorted, replaces the entry of that peer and no other. */
  lemma {:induction false} PutPeerSorted(store: seq<PeerInspection>, entry: PeerInspection)
    requires SortedPeers(store)
    ensures var put := PutPeer(store, entry);
            && SortedPeers(put)
            && (forall p :: p in put ==> p == entry || p in store)
            && (forall peer :: FindPeer(put, peer) == if peer == entry.peer then Some(entry) else FindPeer(store, peer))
  {
    if store != [] {
      var first, rest := store[0], store[1..];
      assert store == [first] + rest;
      PutPeerSorted(rest, entry);
      var put := PutPeer(store, entry);
      assert put[1..] == if first.peer == entry.peer then rest
                         else if Before(entry.peer, first.peer) then store else PutPeer(rest, entry);
      forall j | 0 < j < |put| ensures Before(put[0].peer, put[j].peer) {
        assert put[j] == put[1..][j - 1] && put[j] in put[1..];
        if put[j] in rest {
          var k :| 0 <= k < |rest| && rest[k] == put[j];
          assert Before(first.peer, store[k + 1].peer);
          BeforeIsStrict(entry.peer, first.peer, put[j].peer);
        } else {
          BeforeIsStrict(entry.peer, first.peer, first.peer);
        }
      }
      forall i, j | 0 <= i < j < |put| ensures Before(put[i].peer, put[j].peer) {
        if i > 0 {
          assert put[i] == put[1..][i - 1] && put[j] == put[1..][j - 1];
        }
      }
    }
  }

  lemma {:induction false} PutPeersSorted(store: seq<PeerInspection>, entries: seq<PeerInspection>)
    requires SortedPeers(store)
    ensures SortedPeers(PutPeers(store, entries))
    decreases |entries|
  {
    if entries != [] {
      PutPeerSorted(store, entries[0]);
      PutPeersSorted(PutPeer(store, entries[0]), entries[1..]);
    }
  }

  lemma {:induction false} RefreshPeersSorted(store: seq<PeerInspection>, entries: seq<PeerInspection>)
    requires SortedPeers(store)
    ensures SortedPeers(RefreshPeers(store, entries))
    decreases |entries|
  {
    if entries != [] {
      PutPeerSorted(store, Refreshed(store, entries[0]));
      RefreshPeersSorted(PutPeer(store, Refreshed(store, entries[0])), entries[1..]);
    }
  }

  // ---------------------------------------------------------------- cached fields over runs

  ghost predicate CachesAgree(state: DaemonState) {
    && state.denied == DeniedPeers(state.membership, state.revocations)
    && state.pathCandidates == MergedPathCandidates(state)
    && state.localPeer == state.membership.subject
    && SortedPeers(state.peers)
  }

  lemma FreshStateAgrees(network: string, snapshot: AuthoritySnapshot)
    requires FromAuthoritySnapshot(network, snapshot).Ok?
    ensures CachesAgree(FromAuthoritySnapshot(network, snapshot).value)
  {
    hide MergedPathCandidates, DeniedPeers;
    var membership := snapshot.membership.value;
    MergeIdempotent(DaemonState(
      network, membership.subject, membership, snapshot.grants, snapshot.revocations,
      DeniedPeers(membership, snapshot.revocations), snapshot.hints, None,
      PutPeers([], HintPeers(snapshot.hints)), PENDING_NETCHECK, []));
    PutPeersSorted([], HintPeers(snapshot.hints));
  }

  /** Adding revocations does not touch anything that the candidates are computed from. */
  lemma RevocationsKeepCandidates(state: DaemonState, revocations: seq<RevocationRecord>, denied: seq<DeniedPeer>)
    ensures MergedPathCandidates(state.(revocations := revocations, denied := denied)) == MergedPathCandidates(state)
  {
  }

  lemma StepKeepsCaches(state: DaemonState, step: DurableStep)
    requires CachesAgree(state)
    ensures CachesAgree(Step(state, step))
  {
    hide MergedPathCandidates, DeniedPeers, MergeSnapshot, SortedPeers, PutPeers, RefreshPeers;
    match step
    case SyncStep(snapshot) =>
      var outcome := MergeSnapshot(state.network, Some(AuthoritySnapshotOf(state)), snapshot);
      if outcome.Ok? && outcome.value.0.membership.Some? {
        var merged, membership := outcome.value.0, outcome.value.0.membership.value;
        NoPeersSorted();
        PutPeersSorted([], state.peers);
        RefreshPeersSorted(PutPeers([], state.peers), HintPeers(merged.hints));
        MergeIdempotent(state.(
          localPeer := membership.subject, membership := membership, grants := merged.grants,
          revocations := merged.revocations, denied := DeniedPeers(membership, merged.revocations),
          bootstrap := merged.hints,
          peers := RefreshPeers(PutPeers([], state.peers), HintPeers(merged.hints))));
      }
    case RevocationsStep(records) =>
      var revocations := AppendRevocations(state.revocations, records);
      RevocationsKeepCandidates(state, revocations, DeniedPeers(state.membership, revocations));
    case RelayMapStep(m) =>
      NoPeersSorted();
      PutPeersSorted([], state.peers);
      RefreshPeersSorted(PutPeers([], state.peers), RelayPeers(m));
      MergeIdempotent(state.(relayMap := Some(m), peers := RefreshPeers(PutPeers([], state.peers), RelayPeers(m))));
    case ReprobeStep(reason) => MergeIdempotent(state.(netcheck := ReprobeNetcheck(state.netcheck, reason)));
    case ReloadStep =>
  }

  lemma NoPeersSorted()
    ensures SortedPeers([])
  {
  }

  /** From a fresh state, over any run, each cached field equals its recomputation and peers stay sorted. */
  lemma {:induction false} CachesAgreeAlways(state: DaemonState, steps: seq<DurableStep>)
    requires CachesAgree(state)
    ensures CachesAgree(Run(state, steps))
    decreases |steps|
  {
    hide CachesAgree, Step;
    if steps != [] {
      StepKeepsCaches(state, steps[0]);
      CachesAgreeAlways(Step(state, steps[0]), steps[1..]);
    }
  }

  // ---------------------------------------------------------------- revocation is permanent

  lemma StepKeepsRevocations(state: DaemonState, step: DurableStep)
    ensures state.revocations <= Step(state, step).revocations
  {
    hide MergedPathCandidates, DeniedPeers;
    match step
    case SyncStep(snapshot) => RevocationsGrow(state.revocations, snapshot.revocations);
    case RevocationsStep(records) => RevocationsGrow(state.revocations, records);
    case _ =>
  }

  lemma {:induction false} RunKeepsRevocations(state: DaemonState, steps: seq<DurableStep>)
    ensures state.revocations <= Run(state, steps).revocations
    decreases |steps|
  {
    hide Step;
    if steps != [] {
      StepKeepsRevocations(state, steps[0]);
      RunKeepsRevocations(Step(state, steps[0]), steps[1..]);
    }
  }

  /** Once a peer is revoked it is denied for every protocol in every later state, whatever arrives. */
  lemma RevocationIsPermanent(state: DaemonState, steps: seq<DurableStep>, r: RevocationRecord, peer: PeerId,
                              protocol: ProtocolId)
    requires CachesAgree(state) && r in state.revocations && r.target == PeerTarget(peer)
    ensures !ExplainPolicy(Run(state, steps), peer, protocol).allowed
  {
    var later := Run(state, steps);
    hide CachesAgree, Run, DeniedPeers, ExplainLocalPolicy;
    RunKeepsRevocations(state, steps);
    CachesAgreeAlways(state, steps);
    assert r in later.revocations && Denies(later.membership, r, peer);
    DeniedExactly(later.membership, later.revocations, peer);
    assert later.denied == DeniedPeers(later.membership, later.revocations) by {
      CacheOfDenied(later);
    }
  }

  /**
   Once a grant is revoked by subject and sequence number it never again carries a decision: in every later
   state, what is allowed is allowed by some other grant.
   */
  lemma GrantRevocationIsPermanent(state: DaemonState, steps: seq<DurableStep>, r: RevocationRecord, subject: PeerId,
                                   sequence: nat, peer: PeerId, protocol: ProtocolId)
    requires r in state.revocations && r.target == GrantTarget(subject, sequence)
    requires ExplainPolicy(Run(state, steps), peer, protocol).allowed
    ensures var later := Run(state, steps);
            exists g :: g in later.grants && g.subject == later.localPeer
                        && Grants(g, ProtocolCapability(protocol), protocol)
                        && !(g.subject == subject && g.sequence == sequence)
  {
    var later := Run(state, steps);
    RunKeepsRevocations(state, steps);
    hide Run, ExplainPolicy, Grants;
    AllowedExactly(later, peer, protocol);
    var g :| g in later.grants && ActiveFor(later, later.localPeer, g) && Grants(g, ProtocolCapability(protocol), protocol);
    assert r in later.revocations;
  }

  lemma CacheOfDenied(state: DaemonState)
    requires CachesAgree(state)
    ensures state.denied == DeniedPeers(state.membership, state.revocations)
  {
  }

  // ---------------------------------------------------------------- a sync that changes nothing

  lemma {:induction false} AppendGrowsByNew(current: seq<RevocationRecord>, incoming: seq<RevocationRecord>)
    requires |AppendRevocations(current, incoming)| == |current|
    ensures AppendRevocations(current, incoming) == current
  {
    RevocationsGrow(current, incoming);
  }

  lemma {:induction false} FilterEmptyMeansNone<X>(s: seq<X>, keep: X -> bool, x: X)
    requires Filter(s, keep) == [] && x in s
    ensures !keep(x)
  {
    FilterMembers(s, keep);
  }

  /** The grant is the first of its key. */
  predicate Leading(grants: seq<CapabilityGrant>, g: CapabilityGrant) {
    FindGrant(grants, g) == Some(g)
  }

  function LeadingGrants(grants: seq<CapabilityGrant>): seq<CapabilityGrant> {
    Filter(grants, (g: CapabilityGrant) => Leading(grants, g))
  }

  /** No conflict and nothing added or removed: the incoming grants are the first of each current key. */
  lemma ZeroDeltaGrants(current: seq<CapabilityGrant>, incoming: seq<CapabilityGrant>, g: CapabilityGrant)
    requires !ConflictingGrants(current, incoming)
    requires NewGrants(current, incoming) == [] && NewGrants(incoming, current) == []
    ensures g in incoming <==> g in LeadingGrants(current)
  {
    FilterMembers(current, (c: CapabilityGrant) => Leading(current, c));
    hide FindGrant, LeadingGrants;
    assert g in LeadingGrants(current) <==> g in current && Leading(current, g) by {
      UnfoldLeading(current, g);
    }
    FindGrantIn(current, g);
    if g in incoming {
      FilterEmptyMeansNone(incoming, (c: CapabilityGrant) => !KnownGrant(current, c), g);
    }
    if g in current && Leading(current, g) {
      FilterEmptyMeansNone(current, (c: CapabilityGrant) => !KnownGrant(incoming, c), g);
      var i :| i in incoming && SameGrant(i, g);
      FilterEmptyMeansNone(incoming, (c: CapabilityGrant) => !KnownGrant(current, c), i);
      FindGrantIn(current, i);
      FindSameKey(current, i, g);
    }
  }

  lemma UnfoldLeading(grants: seq<CapabilityGrant>, g: CapabilityGrant)
    ensures g in LeadingGrants(grants) <==> g in grants && Leading(grants, g)
  {
    FilterMembers(grants, (c: CapabilityGrant) => Leading(grants, c));
  }

  lemma ConsistentAllLead(grants: seq<CapabilityGrant>)
    requires ConsistentGrants(grants)
    ensures LeadingGrants(grants) == grants
  {
    forall g | g in grants ensures Leading(grants, g) {
      FindGrantIn(grants, g);
      assert SameGrant(g, g);
    }
    FilterAll(grants, (g: CapabilityGrant) => Leading(grants, g));
  }

  predicate SamePolicyInputs(a: DaemonState, b: DaemonState) {
    a.network == b.network && a.localPeer == b.localPeer && a.revocations == b.revocations && a.denied == b.denied
  }

  lemma SameGrantsSamePolicy(a: DaemonState, b: DaemonState, peer: PeerId, protocol: ProtocolId)
    requires SamePolicyInputs(a, b) && forall g :: g in a.grants <==> g in b.grants
    ensures ExplainPolicy(a, peer, protocol).allowed == ExplainPolicy(b, peer, protocol).allowed
  {
    AllowedExactly(a, peer, protocol);
    AllowedExactly(b, peer, protocol);
    hide ExplainPolicy, Grants;
  }

  /**
   The exact decision after a sync that reports no change: the one that the state would give if every grant
   behind another of its key were dropped.
   */
  lemma ZeroDeltaExactly(state: DaemonState, incoming: AuthoritySnapshot, peer: PeerId, protocol: ProtocolId)
    requires CachesAgree(state)
    requires SyncAuthority(state, incoming).Ok? && SyncAuthority(state, incoming).value.1 == ZERO_DELTA
    ensures var after := SyncAuthority(state, incoming).value.0;
            && SamePolicyInputs(state, after)
            && ExplainPolicy(after, peer, protocol).allowed ==
               ExplainPolicy(state.(grants := LeadingGrants(state.grants)), peer, protocol).allowed
  {
    var after := SyncAuthority(state, incoming).value.0;
    var led := state.(grants := LeadingGrants(state.grants));
    AppendGrowsByNew(state.revocations, incoming.revocations);
    assert SamePolicyInputs(led, after);
    forall g ensures g in led.grants <==> g in after.grants {
      ZeroDeltaGrants(state.grants, incoming.grants, g);
    }
    hide SyncAuthority, CachesAgree, ExplainPolicy, LeadingGrants;
    SameGrantsSamePolicy(led, after, peer, protocol);
  }

  /**
   Skipping the reevaluation after a sync that reports no change is sound for policy when no two current
   grants share a key without being equal: the decision stays the same for every peer and protocol.
   */
  lemma ZeroDeltaKeepsPolicy(state: DaemonState, incoming: AuthoritySnapshot, peer: PeerId, protocol: ProtocolId)
    requires CachesAgree(state) && ConsistentGrants(state.grants)
    requires SyncAuthority(state, incoming).Ok? && SyncAuthority(state, incoming).value.1 == ZERO_DELTA
    ensures var after := SyncAuthority(state, incoming).value.0;
            ExplainPolicy(after, peer, protocol).allowed == ExplainPolicy(state, peer, protocol).allowed
  {
    ZeroDeltaExactly(state, incoming, peer, protocol);
    ConsistentAllLead(state.grants);
    assert state.(grants := state.grants) == state;
    hide SyncAuthority, CachesAgree, ExplainPolicy, LeadingGrants, ConsistentGrants;
  }

  /**
   Without that, a second grant behind one of its key can be lost unseen: here the state holds one that
   allows a protocol, the sync is accepted with a zero delta, and afterwards the protocol is refused.
   */
  lemma ShadowedGrantIsLost(state: DaemonState, first: CapabilityGrant, second: CapabilityGrant, protocol: ProtocolId)
    requires CachesAgree(state) && state.grants == [first, second] && SameGrant(first, second)
    requires DenyReason(state, state.localPeer).None? && ActiveFor(state, state.localPeer, second)
    requires !Grants(first, ProtocolCapability(protocol), protocol)
    requires Grants(second, ProtocolCapability(protocol), protocol)
    ensures var incoming := AuthoritySnapshotOf(state).(grants := [first]);
            && SyncAuthority(state, incoming).Ok? && SyncAuthority(state, incoming).value.1 == ZERO_DELTA
            && ExplainPolicy(state, state.localPeer, protocol).allowed
            && !ExplainPolicy(SyncAuthority(state, incoming).value.0, state.localPeer, protocol).allowed
  {
    var incoming := AuthoritySnapshotOf(state).(grants := [first]);
    SyncBack(state, incoming, first, second);
    AllowedExactly(state, state.localPeer, protocol);
    assert second in state.grants;
    ZeroDeltaExactly(state, incoming, state.localPeer, protocol);
    var led := state.(grants := LeadingGrants(state.grants));
    forall g | g in led.grants ensures g == first {
      UnfoldLeading(state.grants, g);
      assert FindGrant([first, second], g).value == first;
    }
    AllowedExactly(led, state.localPeer, protocol);
    hide SyncAuthority, CachesAgree, ExplainPolicy, LeadingGrants, ActiveFor, Grants;
  }

  lemma SyncBack(state: DaemonState, incoming: AuthoritySnapshot, first: CapabilityGrant, second: CapabilityGrant)
    requires state.grants == [first, second] && SameGrant(first, second)
    requires incoming == AuthoritySnapshotOf(state).(grants := [first])
    ensures SyncAuthority(state, incoming).Ok? && SyncAuthority(state, incoming).value.1 == ZERO_DELTA
  {
    assert FindGrant(state.grants, first) == Some(first);
    assert !ConflictingGrants(state.grants, [first]);
    assert KnownGrant([first], first) && KnownGrant([first], second) && KnownGrant(state.grants, first) by {
      assert first in [first] && first in state.grants;
      assert SameGrant(first, first) && SameGrant(first, second);
    }
    FilterNone([first], (g: CapabilityGrant) => !KnownGrant(state.grants, g));
    FilterNone(state.grants, (g: CapabilityGrant) => !KnownGrant([first], g));
    NothingNew([first], state.bootstrap);
    forall r | r in state.revocations ensures KnownRevocation(state.revocations, r) {
      assert SameRevocation(r, r);
    }
    AppendNothing(state.revocations, state.revocations);
    hide KnownGrant, KnownHint, ConflictingGrants, AppendRevocations, MergedPathCandidates, DeniedPeers, PutPeers,
         RefreshPeers, FindGrant;
  }

  /** Taking a relay map leaves every policy decision as it was. */
  lemma RelayMapKeepsPolicy(state: DaemonState, incoming: RelayMap, peer: PeerId, protocol: ProtocolId)
    ensures ExplainPolicy(ApplyRelayMap(state, incoming).0, peer, protocol) == ExplainPolicy(state, peer, protocol)
  {
    var after := ApplyRelayMap(state, incoming).0;
    assert SamePolicyInputs(state, after) && after.grants == state.grants;
    SameActive(state, after);
  }

  lemma SameActive(a: DaemonState, b: DaemonState)
    requires SamePolicyInputs(a, b) && a.grants == b.grants
    ensures GrantsForPeer(a, a.localPeer) == GrantsForPeer(b, b.localPeer)
  {
    SameFilter(a, b, a.grants);
  }

  /** The daemon skips the reevaluation after a sync only when no decision changed, whatever the relay map brought. */
  lemma SkippingIsSound(state: DaemonState, network: string, incoming: AuthoritySnapshot, relayMap: RelayMap,
                        peer: PeerId, protocol: ProtocolId)
    requires CachesAgree(state) && ConsistentGrants(state.grants)
    requires var outcome := SyncOrigin(Some(state), network, incoming, relayMap);
             outcome.Ok? && !RequiresReevaluation(outcome.value.1)
    ensures ExplainPolicy(SyncOrigin(Some(state), network, incoming, relayMap).value.0, peer, protocol).allowed ==
            ExplainPolicy(state, peer, protocol).allowed
  {
    hide SyncAuthority, ApplyRelayMap, CachesAgree, ExplainPolicy, ConsistentGrants;
    var synced := SyncAuthority(state, incoming).value.0;
    ZeroDeltaKeepsPolicy(state, incoming, peer, protocol);
    RelayMapKeepsPolicy(synced, relayMap, peer, protocol);
  }

  /** The first sync always asks for a reevaluation. */
  lemma FirstSyncReevaluates(network: string, snapshot: AuthoritySnapshot, relayMap: RelayMap)
    requires SyncOrigin(None, network, snapshot, relayMap).Ok?
    ensures RequiresReevaluation(SyncOrigin(None, network, snapshot, relayMap).value.1)
    ensures CachesAgree(SyncOrigin(None, network, snapshot, relayMap).value.0)
  {
    FreshStateAgrees(network, snapshot);
    var started := FromAuthoritySnapshot(network, snapshot).value;
    hide FromAuthoritySnapshot, ApplyRelayMap, Recached, CachesAgree;
    StepKeepsCaches(started, ReloadStep);
    StepKeepsCaches(Recached(started), RelayMapStep(relayMap));
  }

  /**
   The relay map is counted by peers only: nothing is reported exactly when the map is older or every peer
   in it is known, even if endpoints under those peers, and so the routes, change.
   */
  lemma RelayCountExactly(state: DaemonState, incoming: RelayMap)
    ensures ApplyRelayMap(state, incoming).1 == 0 <==>
            || (state.relayMap.Some? && state.relayMap.value.version > incoming.version)
            || forall r :: r in incoming.relays ==> IsRelayPeer(Announcements(state), r.peer)
  {
    hide IsRelayPeer, Recached, Announcements, PutPeers, RefreshPeers;
    var unseen := (r: RelayAnnouncement) => !IsRelayPeer(Announcements(state), r.peer);
    FilterMembers(incoming.relays, unseen);
    if forall r :: r in incoming.relays ==> IsRelayPeer(Announcements(state), r.peer) {
      FilterNone(incoming.relays, unseen);
    } else {
      var r :| r in incoming.relays && !IsRelayPeer(Announcements(state), r.peer);
      assert r in Filter(incoming.relays, unseen);
    }
  }
}
