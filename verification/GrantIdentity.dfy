/**
 What makes two artifacts the same, on their fields: grants by network, issuer, subject and sequence
 number, revocations by sequence number, issuer and target. And what the merge and the authority make of it.
 */
module GrantIdentity {
  import opened Model
  import opened Policy
  import opened SnapshotMerge
  import A = AuthorityLog

  /** Equal in the four fields that identify a grant. */
  predicate SameFour(a: CapabilityGrant, b: CapabilityGrant) {
    a.networkId == b.networkId && a.issuer == b.issuer && a.subject == b.subject && a.sequence == b.sequence
  }

  /** `i` is the first position of a grant with these four fields. */
  ghost predicate FirstOfFour(grants: seq<CapabilityGrant>, i: nat, g: CapabilityGrant) {
    i < |grants| && SameFour(grants[i], g) && forall j :: 0 <= j < i ==> !SameFour(grants[j], g)
  }

  lemma {:induction false} FindIsFirst(grants: seq<CapabilityGrant>, g: CapabilityGrant)
    ensures forall i: nat :: FirstOfFour(grants, i, g) ==> FindGrant(grants, g) == Some(grants[i])
    ensures FindGrant(grants, g).Some? ==> exists i: nat :: FirstOfFour(grants, i, g)
  {
    if grants != [] {
      if SameFour(grants[0], g) {
        assert FirstOfFour(grants, 0, g);
      } else {
        var rest := grants[1..];
        FindIsFirst(rest, g);
        hide SameFour;
        forall i: nat | FirstOfFour(rest, i, g) ensures FirstOfFour(grants, i + 1, g) {
          forall j | 0 <= j < i + 1 ensures !SameFour(grants[j], g) {
            if j > 0 {
              assert rest[j - 1] == grants[j];
            }
          }
        }
        forall i: nat | FirstOfFour(grants, i, g) ensures i > 0 && FirstOfFour(rest, i - 1, g) {
        }
      }
    }
  }

  /** Some incoming grant differs from the first current one with the same four fields. */
  ghost predicate SomeDiffers(current: seq<CapabilityGrant>, incoming: seq<CapabilityGrant>) {
    exists g, i: nat :: g in incoming && FirstOfFour(current, i, g) && current[i] != g
  }

  lemma ConflictOnFields(current: seq<CapabilityGrant>, incoming: seq<CapabilityGrant>)
    ensures ConflictingGrants(current, incoming) <==> SomeDiffers(current, incoming)
  {
    hide FirstOfFour, FindGrant;
    if g :| g in incoming && FindGrant(current, g).Some? && FindGrant(current, g).value != g {
      FindIsFirst(current, g);
      var i: nat :| FirstOfFour(current, i, g);
      FirstInRange(current, i, g);
      assert current[i] != g;
    }
    if SomeDiffers(current, incoming) {
      forall g, i: nat | g in incoming && FirstOfFour(current, i, g) && i < |current| && current[i] != g
        ensures FindGrant(current, g).Some? && FindGrant(current, g).value != g
      {
        FindIsFirst(current, g);
      }
      DifferingInRange(current, incoming);
    }
  }

  lemma FirstInRange(grants: seq<CapabilityGrant>, i: nat, g: CapabilityGrant)
    requires FirstOfFour(grants, i, g)
    ensures i < |grants|
  {
  }

  lemma DifferingInRange(current: seq<CapabilityGrant>, incoming: seq<CapabilityGrant>)
    requires SomeDiffers(current, incoming)
    ensures exists g, i: nat :: g in incoming && FirstOfFour(current, i, g) && i < |current| && current[i] != g
  {
  }

  /** With the network and the membership accepted, the merge is a conflict exactly then, and accepted otherwise. */
  lemma MergeConflictExactly(networkId: string, current: AuthoritySnapshot, incoming: AuthoritySnapshot)
    requires incoming.networkId == networkId && MergeMembership(current.membership, incoming.membership).Ok?
    ensures MergeSnapshot(networkId, Some(current), incoming) == Err(GrantConflict) <==>
            SomeDiffers(current.grants, incoming.grants)
    ensures MergeSnapshot(networkId, Some(current), incoming).Err? ==>
            MergeSnapshot(networkId, Some(current), incoming).error == GrantConflict
  {
    ConflictOnFields(current.grants, incoming.grants);
    hide SomeDiffers, ConflictingGrants, AppendRevocations, NewGrants, NewHints, MergeMembership;
  }

  /** Every grant of `grants` has one in `known` with its four fields. */
  ghost predicate AllMatched(known: seq<CapabilityGrant>, grants: seq<CapabilityGrant>) {
    forall g :: g in grants ==> exists c :: c in known && SameFour(c, g)
  }

  lemma NewOnFields(known: seq<CapabilityGrant>, grants: seq<CapabilityGrant>)
    ensures forall g :: g in NewGrants(known, grants) <==> g in grants && forall c :: c in known ==> !SameFour(c, g)
    ensures |NewGrants(known, grants)| == 0 <==> AllMatched(known, grants)
  {
    var keep := (g: CapabilityGrant) => !KnownGrant(known, g);
    FilterMembers(grants, keep);
    forall g ensures KnownGrant(known, g) <==> exists c :: c in known && SameFour(c, g) {
      if c :| c in known && SameFour(c, g) {
        assert SameGrant(c, g);
      }
      if c :| c in known && SameGrant(c, g) {
        assert SameFour(c, g);
      }
    }
    hide SameFour, KnownGrant;
    var fresh_ := NewGrants(known, grants);
    if fresh_ != [] {
      assert fresh_[0] in fresh_;
    }
  }

  /** No grant is counted as added, or as removed, exactly when each has a counterpart with its four fields. */
  lemma GrantCountsOnFields(networkId: string, current: AuthoritySnapshot, incoming: AuthoritySnapshot)
    requires MergeSnapshot(networkId, Some(current), incoming).Ok?
    ensures var (merged, delta) := MergeSnapshot(networkId, Some(current), incoming).value;
            && merged.grants == incoming.grants
            && (delta.grantsAdded == 0 <==> AllMatched(current.grants, incoming.grants))
            && (delta.grantsRemoved == 0 <==> AllMatched(incoming.grants, current.grants))
  {
    NewOnFields(current.grants, incoming.grants);
    NewOnFields(incoming.grants, current.grants);
    hide AllMatched, NewGrants, NewHints, AppendRevocations, ConflictingGrants;
  }

  // ---------------------------------------------------------------- issuing

  lemma {:induction false} PutGrantOnFields(grants: seq<CapabilityGrant>, grant: CapabilityGrant)
    ensures (forall c :: c in grants ==> !SameFour(c, grant)) ==> A.PutGrant(grants, grant) == grants + [grant]
    ensures forall i: nat :: FirstOfFour(grants, i, grant) ==> A.PutGrant(grants, grant) == grants[i := grant]
  {
    if grants == [] {
      assert [] + [grant] == [grant];
    } else {
      var rest := grants[1..];
      assert grants == [grants[0]] + rest;
      PutGrantOnFields(rest, grant);
      if SameFour(grants[0], grant) {
        assert grants[0 := grant] == [grant] + rest;
      } else {
        forall i: nat | FirstOfFour(grants, i, grant) ensures A.PutGrant(grants, grant) == grants[i := grant] {
          assert FirstOfFour(rest, i - 1, grant);
          assert grants[i := grant] == [grants[0]] + rest[i - 1 := grant];
        }
      }
    }
  }

  /** Issuing a grant with a new sequence number appends it; issuing one again overwrites the first of its four fields. */
  lemma IssuingKeepsGrants(state: A.AuthorityState, grant: CapabilityGrant)
    ensures var after := A.Persist(state, A.IssuedGrant(grant));
            && ((forall c :: c in state.grants ==> !SameFour(c, grant)) ==> after.grants == state.grants + [grant])
            && (forall i: nat :: FirstOfFour(state.grants, i, grant) ==> after.grants == state.grants[i := grant])
            && (forall c :: c in state.grants && !SameFour(c, grant) ==> c in after.grants)
            && grant in after.grants && after.nextCapabilitySequence > grant.sequence
  {
    PutGrantOnFields(state.grants, grant);
    PutKeepsOthers(state.grants, grant);
    hide A.PutGrant, A.FindMember, SameFour, FirstOfFour;
  }

  lemma {:induction false} PutKeepsOthers(grants: seq<CapabilityGrant>, grant: CapabilityGrant)
    ensures grant in A.PutGrant(grants, grant)
    ensures forall c :: c in grants && !SameFour(c, grant) ==> c in A.PutGrant(grants, grant)
  {
    if grants != [] {
      var rest := grants[1..];
      assert grants == [grants[0]] + rest;
      PutKeepsOthers(rest, grant);
      assert A.PutGrant(grants, grant) ==
             if SameFour(grants[0], grant) then [grant] + rest else [grants[0]] + A.PutGrant(rest, grant);
    }
  }

  // ---------------------------------------------------------------- members

  /** `i` is the first member of the seed. */
  ghost predicate FirstMember(members: seq<A.AuthorityMember>, i: nat, seed: string) {
    i < |members| && members[i].subjectSeed == seed && forall j :: 0 <= j < i ==> members[j].subjectSeed != seed
  }

  lemma {:induction false} MemberIsFirst(members: seq<A.AuthorityMember>, seed: string)
    ensures forall i: nat :: FirstMember(members, i, seed) ==> A.FindMember(members, seed) == Some(members[i])
    ensures A.FindMember(members, seed).None? <==> forall m :: m in members ==> m.subjectSeed != seed
  {
    if members != [] && members[0].subjectSeed != seed {
      var rest := members[1..];
      assert members == [members[0]] + rest;
      MemberIsFirst(rest, seed);
      forall i: nat | FirstMember(members, i, seed) ensures A.FindMember(members, seed) == Some(members[i]) {
        assert FirstMember(rest, i - 1, seed);
      }
    }
  }

  /** A subject is served its own certificate, exactly the stored grants to it, and the whole revocation log. */
  lemma ProjectionExactly(state: A.AuthorityState, seed: string)
    ensures A.ProjectedSnapshot(state, Some(seed)).None? <==> forall m :: m in state.members ==> m.subjectSeed != seed
    ensures forall i: nat :: FirstMember(state.members, i, seed) ==>
      var membership := state.members[i].membership;
      var projected := A.ProjectedSnapshot(state, Some(seed));
      && projected.Some? && projected.value.membership == Some(membership)
      && projected.value.revocations == state.revocations && projected.value.hints == state.hints
      && (forall g :: g in projected.value.grants <==> g in state.grants && g.subject == membership.subject)
  {
    MemberIsFirst(state.members, seed);
    hide A.FindMember, FirstMember;
    if A.FindMember(state.members, seed).Some? {
      var membership := A.FindMember(state.members, seed).value.membership;
      FilterMembers(state.grants, (g: CapabilityGrant) => g.subject == membership.subject);
    }
  }

  // ---------------------------------------------------------------- revocations

  /** Equal in the three fields that identify a revocation. */
  predicate SameThree(a: RevocationRecord, b: RevocationRecord) {
    a.sequence == b.sequence && a.issuer == b.issuer && a.target == b.target
  }

  ghost predicate HasThree(revocations: seq<RevocationRecord>, r: RevocationRecord) {
    exists c :: c in revocations && SameThree(c, r)
  }

  lemma KnownOnFields(revocations: seq<RevocationRecord>, r: RevocationRecord)
    ensures KnownRevocation(revocations, r) <==> HasThree(revocations, r)
  {
    if c :| c in revocations && SameRevocation(c, r) {
      assert SameThree(c, r);
    }
    if c :| c in revocations && SameThree(c, r) {
      assert SameRevocation(c, r);
    }
  }

  /**
   What a merge adds to the revocations: afterwards every incoming one is represented by its three fields,
   and what was added came from the incoming list, was not represented before, and stands there once.
   */
  lemma {:induction false} AppendedOnFields(current: seq<RevocationRecord>, incoming: seq<RevocationRecord>)
    ensures var all := AppendRevocations(current, incoming);
            && current <= all
            && (forall r :: r in incoming ==> HasThree(all, r))
            && (forall i :: |current| <= i < |all| ==> all[i] in incoming && !HasThree(all[..i], all[i]))
    decreases |incoming|
  {
    RevocationsGrow(current, incoming);
    AppendCovers(current, incoming);
    var all := AppendRevocations(current, incoming);
    hide KnownRevocation;
    forall r | r in incoming ensures HasThree(all, r) {
      KnownOnFields(all, r);
    }
    hide HasThree;
    if incoming != [] {
      var known := KnownRevocation(current, incoming[0]);
      var next := if known then current else current + [incoming[0]];
      KnownOnFields(current, incoming[0]);
      AppendedOnFields(next, incoming[1..]);
      if !known {
        assert all[..|current|] == current && all[|current|] == incoming[0];
      }
    }
  }

  // ---------------------------------------------------------------- hints

  /** A white-space character of the ASCII range. */
  predicate Space(c: char) {
    c in {' ', '\t', '\n', '\U{000B}', '\U{000C}', '\r'}
  }

  ghost predicate AllSpace(text: string) {
    forall i :: 0 <= i < |text| ==> Space(text[i])
  }

  /** `core` is the text without the white space around it. */
  ghost predicate Around(text: string, core: string) {
    && (exists front, back :: text == (front + core) + back && AllSpace(front) && AllSpace(back))
    && (core != "" ==> !Space(core[0]) && !Space(core[|core| - 1]))
  }

  lemma {:induction false} StartTrimmed(text: string) returns (front: string)
    ensures text == front + TrimStart(text) && AllSpace(front)
    ensures TrimStart(text) != "" ==> !Space(TrimStart(text)[0])
  {
    if text != "" && Space(text[0]) {
      var more := StartTrimmed(text[1..]);
      front := [text[0]] + more;
      assert text == [text[0]] + text[1..];
    } else {
      front := "";
    }
  }

  lemma {:induction false} EndTrimmed(text: string) returns (back: string)
    ensures text == TrimEnd(text) + back && AllSpace(back)
    ensures TrimEnd(text) != "" ==> !Space(TrimEnd(text)[|TrimEnd(text)| - 1])
  {
    if text != "" && Space(text[|text| - 1]) {
      var more := EndTrimmed(text[..|text| - 1]);
      back := more + [text[|text| - 1]];
      assert text == text[..|text| - 1] + [text[|text| - 1]];
    } else {
      back := "";
    }
  }

  lemma CoreIsUnique(text: string, a: string, b: string)
    requires Around(text, a) && Around(text, b)
    ensures a == b
  {
    var frontA, backA :| text == (frontA + a) + backA && AllSpace(frontA) && AllSpace(backA);
    var frontB, backB :| text == (frontB + b) + backB && AllSpace(frontB) && AllSpace(backB);
    CoreStarts(text, frontA, a, backA, frontB, b, backB);
    CoreStarts(text, frontB, b, backB, frontA, a, backA);
    assert a == text[|frontA|..|frontA| + |a|];
    assert b == text[|frontB|..|frontB| + |b|];
  }

  /** A core that is not empty starts no earlier and ends no later than any other. */
  lemma CoreStarts(text: string, frontA: string, a: string, backA: string, frontB: string, b: string, backB: string)
    requires text == (frontA + a) + backA && AllSpace(frontA) && AllSpace(backA)
    requires text == (frontB + b) + backB && AllSpace(frontB) && AllSpace(backB)
    requires a != "" ==> !Space(a[0]) && !Space(a[|a| - 1])
    ensures a != "" ==> b != "" && |frontB| <= |frontA| && |frontA| + |a| <= |frontB| + |b|
  {
    if a != "" {
      var first, last := |frontA|, |frontA| + |a| - 1;
      assert text[first] == a[0] && text[last] == a[|a| - 1];
      assert forall i :: 0 <= i < |frontB| ==> text[i] == frontB[i];
      assert forall i :: |frontB| + |b| <= i < |text| ==> text[i] == backB[i - |frontB| - |b|];
    }
  }

  /** One of the addresses is `core` but for white space around it. */
  ghost predicate ListsCore(addresses: seq<string>, core: string) {
    exists a :: a in addresses && Around(a, core)
  }

  /** The addresses of a hint are compared without the white space around them. */
  lemma NormalizedExactly(addresses: seq<string>, core: string)
    ensures core in NormalizedAddresses(addresses) <==> ListsCore(addresses, core)
  {
    forall a ensures Around(a, TrimEnd(TrimStart(a))) {
      TrimmedAround(a);
    }
    hide TrimStart, TrimEnd, Around;
    if a :| a in addresses && Around(a, core) {
      CoreIsUnique(a, core, TrimEnd(TrimStart(a)));
    }
  }

  lemma TrimmedAround(text: string)
    ensures Around(text, TrimEnd(TrimStart(text)))
  {
    var front := StartTrimmed(text);
    var back := EndTrimmed(TrimStart(text));
    var core := TrimEnd(TrimStart(text));
    hide TrimStart, TrimEnd;
    assert text == (front + core) + back;
    if core != "" {
      assert core[0] == TrimStart(text)[0];
    }
  }

  /** Two hints are one when they name the same peer, or, if not both name one, list the same addresses. */
  lemma SameHintOnFields(a: BootstrapHint, b: BootstrapHint)
    ensures SameHint(a, b) <==>
            if a.peer.Some? && b.peer.Some? then a.peer == b.peer
            else forall core :: ListsCore(a.addresses, core) <==> ListsCore(b.addresses, core)
  {
    forall core ensures core in NormalizedAddresses(a.addresses) <==> ListsCore(a.addresses, core) {
      NormalizedExactly(a.addresses, core);
    }
    forall core ensures core in NormalizedAddresses(b.addresses) <==> ListsCore(b.addresses, core) {
      NormalizedExactly(b.addresses, core);
    }
    hide NormalizedAddresses, ListsCore;
  }
}
