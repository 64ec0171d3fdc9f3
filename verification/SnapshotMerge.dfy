/**
 Authority artifacts and the merge of an incoming snapshot into the current one (crates/control).
 */
module SnapshotMerge {
  import opened Model
  import opened Policy

  datatype RevocationTarget =
    | EnrollmentTarget(tokenId: string)
    | MembershipTarget(subject: PeerId, issuedAt: nat)
    | GrantTarget(subject: PeerId, sequence: nat)
    | PeerTarget(peer: PeerId)

  datatype RevocationRecord = RevocationRecord(
    networkId: string, issuer: PeerId, target: RevocationTarget, reason: string, issuedAt: nat,
    effectiveAt: nat, sequence: nat, note: Option<string>, signature: string)

  datatype BootstrapHint = BootstrapHint(
    peer: Option<PeerId>, addresses: seq<string>, metadata: map<string, string>)

  datatype AuthoritySnapshot = AuthoritySnapshot(
    networkId: string, enrollmentToken: Option<string>, membership: Option<MembershipCertificate>,
    grants: seq<CapabilityGrant>, revocations: seq<RevocationRecord>, hints: seq<BootstrapHint>)

  datatype SnapshotDelta = SnapshotDelta(
    membershipChanged: bool, grantsAdded: nat, grantsRemoved: nat, revocationsAdded: nat,
    hintsAdded: nat, hintsRemoved: nat)

  datatype ControlError = NetworkMismatch | SubjectMismatch | MembershipRollback | GrantConflict

  const ZERO_DELTA := SnapshotDelta(false, 0, 0, 0, 0, 0)

  // ---------------------------------------------------------------- identity of artifacts

  datatype GrantKey = GrantKey(networkId: string, issuer: PeerId, subject: PeerId, sequence: nat)

  function KeyOfGrant(grant: CapabilityGrant): GrantKey {
    GrantKey(grant.networkId, grant.issuer, grant.subject, grant.sequence)
  }

  predicate SameGrant(a: CapabilityGrant, b: CapabilityGrant) {
    KeyOfGrant(a) == KeyOfGrant(b)
  }

  predicate SameRevocation(a: RevocationRecord, b: RevocationRecord) {
    a.sequence == b.sequence && a.issuer == b.issuer && a.target == b.target
  }

  predicate IsBlank(c: char) {
    c == ' ' || ('\t' <= c && c <= '\r')
  }

  function TrimStart(text: string): string {
    if text != "" && IsBlank(text[0]) then TrimStart(text[1..]) else text
  }

  function TrimEnd(text: string): string {
    if text != "" && IsBlank(text[|text| - 1]) then TrimEnd(text[..|text| - 1]) else text
  }

  /** Sorting and deduplicating leaves exactly the set of trimmed addresses. */
  function NormalizedAddresses(addresses: seq<string>): set<string> {
    set address | address in addresses :: TrimEnd(TrimStart(address))
  }

  predicate SameHint(a: BootstrapHint, b: BootstrapHint) {
    if a.peer.Some? && b.peer.Some? then a.peer.value == b.peer.value
    else NormalizedAddresses(a.addresses) == NormalizedAddresses(b.addresses)
  }

  // ---------------------------------------------------------------- the merge

  function MergeMembership(current: Option<MembershipCertificate>, incoming: Option<MembershipCertificate>)
    : Result<Option<MembershipCertificate>, ControlError>
  {
    if current.None? then Ok(incoming)
    else if incoming.None? then Ok(current)
    else if current.value.subject != incoming.value.subject then Err(SubjectMismatch)
    else if incoming.value.issuedAt < current.value.issuedAt then Err(MembershipRollback)
    else if incoming.value.issuedAt == current.value.issuedAt && incoming != current then Err(GrantConflict)
    else if incoming.value.issuedAt > current.value.issuedAt
            || incoming.value.expiresAt >= current.value.expiresAt then Ok(incoming)
    else Ok(current)
  }

  function FindGrant(grants: seq<CapabilityGrant>, grant: CapabilityGrant): Option<CapabilityGrant> {
    if grants == [] then None
    else if SameGrant(grants[0], grant) then Some(grants[0])
    else FindGrant(grants[1..], grant)
  }

  /** Some incoming grant differs from the first current grant of the same key. */
  predicate ConflictingGrants(current: seq<CapabilityGrant>, incoming: seq<CapabilityGrant>) {
    exists g :: g in incoming && FindGrant(current, g).Some? && FindGrant(current, g).value != g
  }

  predicate KnownGrant(grants: seq<CapabilityGrant>, grant: CapabilityGrant) {
    exists g :: g in grants && SameGrant(g, grant)
  }

  predicate KnownHint(hints: seq<BootstrapHint>, hint: BootstrapHint) {
    exists h :: h in hints && SameHint(h, hint)
  }

  predicate KnownRevocation(revocations: seq<RevocationRecord>, revocation: RevocationRecord) {
    exists r :: r in revocations && SameRevocation(r, revocation)
  }

  function NewGrants(known: seq<CapabilityGrant>, grants: seq<CapabilityGrant>): seq<CapabilityGrant> {
    Filter(grants, (g: CapabilityGrant) => !KnownGrant(known, g))
  }

  function NewHints(known: seq<BootstrapHint>, hints: seq<BootstrapHint>): seq<BootstrapHint> {
    Filter(hints, (h: BootstrapHint) => !KnownHint(known, h))
  }

  function AppendRevocations(current: seq<RevocationRecord>, incoming: seq<RevocationRecord>): seq<RevocationRecord>
    decreases |incoming|
  {
    if incoming == [] then current
    else
      AppendRevocations(
        if KnownRevocation(current, incoming[0]) then current else current + [incoming[0]], incoming[1..])
  }

  function MergeSnapshot(networkId: string, current: Option<AuthoritySnapshot>, incoming: AuthoritySnapshot)
    : Result<(AuthoritySnapshot, SnapshotDelta), ControlError>
  {
    if incoming.networkId != networkId then Err(NetworkMismatch)
    else if current.None? then
      Ok((incoming, SnapshotDelta(incoming.membership.Some?, |incoming.grants|, 0, |incoming.revocations|,
                                  |incoming.hints|, 0)))
    else
      var cur := current.value;
      match MergeMembership(cur.membership, incoming.membership)
      case Err(error) => Err(error)
      case Ok(membership) =>
        if ConflictingGrants(cur.grants, incoming.grants) then Err(GrantConflict)
        else
          var revocations := AppendRevocations(cur.revocations, incoming.revocations);
          RevocationsGrow(cur.revocations, incoming.revocations);
          Ok((AuthoritySnapshot(
                incoming.networkId,
                if incoming.enrollmentToken.Some? then incoming.enrollmentToken else cur.enrollmentToken,
                membership, incoming.grants, revocations, incoming.hints),
              SnapshotDelta(
                membership != cur.membership, |NewGrants(cur.grants, incoming.grants)|,
                |NewGrants(incoming.grants, cur.grants)|, |revocations| - |cur.revocations|,
                |NewHints(cur.hints, incoming.hints)|, |NewHints(incoming.hints, cur.hints)|)))
  }

  lemma {:induction false} RevocationsGrow(current: seq<RevocationRecord>, incoming: seq<RevocationRecord>)
    ensures current <= AppendRevocations(current, incoming)
    decreases |incoming|
  {
    if incoming != [] {
      var next := if KnownRevocation(current, incoming[0]) then current else current + [incoming[0]];
      RevocationsGrow(next, incoming[1..]);
    }
  }

  // ---------------------------------------------------------------- the loops of the merge

  /** Pushes each incoming revocation that is not known yet and counts the pushes. */
  method PushRevocations(current: seq<RevocationRecord>, incoming: seq<RevocationRecord>)
    returns (all: seq<RevocationRecord>, added: nat)
    ensures all == AppendRevocations(current, incoming) && added == |all| - |current|
  {
    all, added := current, 0;
    for i := 0 to |incoming|
      invariant AppendRevocations(current, incoming) == AppendRevocations(all, incoming[i..])
      invariant |all| == |current| + added
    {
      assert incoming[i..][1..] == incoming[i + 1..];
      if !KnownRevocation(all, incoming[i]) {
        all := all + [incoming[i]];
        added := added + 1;
      }
    }
  }

  method CheckGrants(current: seq<CapabilityGrant>, incoming: seq<CapabilityGrant>) returns (conflict: bool)
    ensures conflict == ConflictingGrants(current, incoming)
  {
    conflict := false;
    for i := 0 to |incoming|
      invariant forall j :: 0 <= j < i ==>
        FindGrant(current, incoming[j]).Some? ==> FindGrant(current, incoming[j]).value == incoming[j]
    {
      var existing := FindGrant(current, incoming[i]);
      if existing.Some? && existing.value != incoming[i] {
        return true;
      }
    }
  }

  method CountNewGrants(known: seq<CapabilityGrant>, grants: seq<CapabilityGrant>) returns (count: nat)
    ensures count == |NewGrants(known, grants)|
  {
    ghost var keep := (g: CapabilityGrant) => !KnownGrant(known, g);
    count := 0;
    for i := 0 to |grants|
      invariant count == |Filter(grants[..i], keep)|
    {
      FilterAppend(grants[..i], [grants[i]], keep);
      assert grants[..i + 1] == grants[..i] + [grants[i]];
      if !KnownGrant(known, grants[i]) {
        count := count + 1;
      }
    }
    assert grants[..|grants|] == grants;
  }

  method CountNewHints(known: seq<BootstrapHint>, hints: seq<BootstrapHint>) returns (count: nat)
    ensures count == |NewHints(known, hints)|
  {
    ghost var keep := (h: BootstrapHint) => !KnownHint(known, h);
    count := 0;
    for i := 0 to |hints|
      invariant count == |Filter(hints[..i], keep)|
    {
      FilterAppend(hints[..i], [hints[i]], keep);
      assert hints[..i + 1] == hints[..i] + [hints[i]];
      if !KnownHint(known, hints[i]) {
        count := count + 1;
      }
    }
    assert hints[..|hints|] == hints;
  }

  method Merge(networkId: string, current: Option<AuthoritySnapshot>, incoming: AuthoritySnapshot)
    returns (outcome: Result<(AuthoritySnapshot, SnapshotDelta), ControlError>)
    ensures outcome == MergeSnapshot(networkId, current, incoming)
  {
    if incoming.networkId != networkId {
      return Err(NetworkMismatch);
    }
    if current.None? {
      return Ok((incoming, SnapshotDelta(incoming.membership.Some?, |incoming.grants|, 0,
                                         |incoming.revocations|, |incoming.hints|, 0)));
    }
    var cur := current.value;
    var membership := MergeMembership(cur.membership, incoming.membership);
    if membership.Err? {
      return Err(membership.error);
    }
    var conflict := CheckGrants(cur.grants, incoming.grants);
    if conflict {
      return Err(GrantConflict);
    }
    var grantsAdded := CountNewGrants(cur.grants, incoming.grants);
    var grantsRemoved := CountNewGrants(incoming.grants, cur.grants);
    var revocations, revocationsAdded := PushRevocations(cur.revocations, incoming.revocations);
    var hintsAdded := CountNewHints(cur.hints, incoming.hints);
    var hintsRemoved := CountNewHints(incoming.hints, cur.hints);
    outcome := Ok((
      AuthoritySnapshot(
        incoming.networkId,
        if incoming.enrollmentToken.Some? then incoming.enrollmentToken else cur.enrollmentToken,
        membership.value, incoming.grants, revocations, incoming.hints),
      SnapshotDelta(membership.value != cur.membership, grantsAdded, grantsRemoved, revocationsAdded,
                    hintsAdded, hintsRemoved)));
  }

  // ---------------------------------------------------------------- merging again

  /** Grants of one key are one grant. */
  ghost predicate ConsistentGrants(grants: seq<CapabilityGrant>) {
    forall a, b :: a in grants && b in grants && SameGrant(a, b) ==> a == b
  }

  lemma {:induction false} FindGrantIn(grants: seq<CapabilityGrant>, grant: CapabilityGrant)
    ensures FindGrant(grants, grant).Some? <==> KnownGrant(grants, grant)
    ensures FindGrant(grants, grant).Some? ==>
      FindGrant(grants, grant).value in grants && SameGrant(FindGrant(grants, grant).value, grant)
  {
    if grants != [] {
      FindGrantIn(grants[1..], grant);
      if g :| g in grants && SameGrant(g, grant) {
        assert g == grants[0] || g in grants[1..];
      }
    }
  }

  lemma SelfConflict(grants: seq<CapabilityGrant>)
    ensures ConflictingGrants(grants, grants) <==> !ConsistentGrants(grants)
  {
    forall g ensures FindGrant(grants, g).Some? <==> KnownGrant(grants, g) {
      FindGrantIn(grants, g);
    }
    if !ConsistentGrants(grants) {
      var a, b :| a in grants && b in grants && SameGrant(a, b) && a != b;
      FindGrantIn(grants, a);
      FindGrantIn(grants, b);
      FindSameKey(grants, a, b);
      assert FindGrant(grants, a).value != a || FindGrant(grants, b).value != b;
    } else if g :| g in grants && FindGrant(grants, g).Some? && FindGrant(grants, g).value != g {
      FindGrantIn(grants, g);
    }
  }

  lemma {:induction false} FindSameKey(grants: seq<CapabilityGrant>, a: CapabilityGrant, b: CapabilityGrant)
    requires SameGrant(a, b)
    ensures FindGrant(grants, a) == FindGrant(grants, b)
  {
    if grants != [] {
      FindSameKey(grants[1..], a, b);
    }
  }

  lemma NothingNew(grants: seq<CapabilityGrant>, hints: seq<BootstrapHint>)
    ensures NewGrants(grants, grants) == [] && NewHints(hints, hints) == []
  {
    forall g | g in grants ensures KnownGrant(grants, g) {
      assert SameGrant(g, g);
    }
    forall h | h in hints ensures KnownHint(hints, h) {
      assert SameHint(h, h);
    }
    FilterNone(grants, (g: CapabilityGrant) => !KnownGrant(grants, g));
    FilterNone(hints, (h: BootstrapHint) => !KnownHint(hints, h));
  }

  lemma {:induction false} AppendCovers(current: seq<RevocationRecord>, incoming: seq<RevocationRecord>)
    ensures forall r :: r in current || r in incoming ==> KnownRevocation(AppendRevocations(current, incoming), r)
    decreases |incoming|
  {
    if incoming == [] {
      forall r | r in current ensures KnownRevocation(current, r) {
        assert SameRevocation(r, r);
      }
    } else {
      var next := if KnownRevocation(current, incoming[0]) then current else current + [incoming[0]];
      AppendCovers(next, incoming[1..]);
      RevocationsGrow(next, incoming[1..]);
      var all := AppendRevocations(current, incoming);
      forall r | r in current || r in incoming ensures KnownRevocation(all, r) {
        if r == incoming[0] && KnownRevocation(current, r) {
          var known :| known in current && SameRevocation(known, r);
          assert known in next && known in all;
        } else {
          assert r in next || r in incoming[1..];
        }
      }
    }
  }

  lemma {:induction false} AppendNothing(current: seq<RevocationRecord>, incoming: seq<RevocationRecord>)
    requires forall r :: r in incoming ==> KnownRevocation(current, r)
    ensures AppendRevocations(current, incoming) == current
    decreases |incoming|
  {
    if incoming != [] {
      assert incoming[0] in incoming;
      AppendNothing(current, incoming[1..]);
    }
  }

  /**
   Merging an accepted snapshot again gives the same state and a zero delta exactly when its grants of
   equal key are equal; otherwise the second merge is refused as a conflict.
   */
  lemma MergeAgain(networkId: string, current: Option<AuthoritySnapshot>, incoming: AuthoritySnapshot)
    requires MergeSnapshot(networkId, current, incoming).Ok?
    ensures var merged := MergeSnapshot(networkId, current, incoming).value.0;
            MergeSnapshot(networkId, Some(merged), incoming) ==
              if ConsistentGrants(incoming.grants) then Ok((merged, ZERO_DELTA)) else Err(GrantConflict)
  {
    hide ConflictingGrants, ConsistentGrants, NewGrants, NewHints, AppendRevocations;
    var merged := MergeSnapshot(networkId, current, incoming).value.0;
    SelfConflict(incoming.grants);
    NothingNew(incoming.grants, incoming.hints);
    if current.Some? {
      AppendCovers(current.value.revocations, incoming.revocations);
    } else {
      AppendCovers(incoming.revocations, []);
      assert AppendRevocations(incoming.revocations, []) == incoming.revocations by {
        AppendNothing(incoming.revocations, []);
      }
    }
    AppendNothing(merged.revocations, incoming.revocations);
  }

  /**
   A membership that is accepted next to a current one is always the incoming one: with equal issue times
   both are the same, so their expiry never decides.
   */
  lemma AcceptedMembership(current: MembershipCertificate, incoming: MembershipCertificate)
    ensures MergeMembership(Some(current), Some(incoming)).Ok? <==>
            current.subject == incoming.subject && (current.issuedAt < incoming.issuedAt || current == incoming)
    ensures MergeMembership(Some(current), Some(incoming)).Ok? ==>
            MergeMembership(Some(current), Some(incoming)).value == Some(incoming)
  {
  }

  // ---------------------------------------------------------------- chains of merges

  /** A client that keeps what it has when a merge is refused. */
  function MergeAll(networkId: string, current: AuthoritySnapshot, incoming: seq<AuthoritySnapshot>): AuthoritySnapshot
    decreases |incoming|
  {
    if incoming == [] then current
    else
      match MergeSnapshot(networkId, Some(current), incoming[0])
      case Err(_) => MergeAll(networkId, current, incoming[1..])
      case Ok(result) => MergeAll(networkId, result.0, incoming[1..])
  }

  ghost predicate NotOlder(before: Option<MembershipCertificate>, after: Option<MembershipCertificate>) {
    before.Some? ==> after.Some? && after.value.subject == before.value.subject
                     && after.value.issuedAt >= before.value.issuedAt
  }

  /** Over any chain the subject stays, the issue time never goes back, and revocations are only added. */
  lemma {:induction false} ChainNeverRollsBack(networkId: string, current: AuthoritySnapshot, incoming: seq<AuthoritySnapshot>)
    ensures var final := MergeAll(networkId, current, incoming);
            && NotOlder(current.membership, final.membership)
            && current.revocations <= final.revocations
            && (current.enrollmentToken.Some? ==> final.enrollmentToken.Some?)
    decreases |incoming|
  {
    hide AppendRevocations, ConflictingGrants, NewGrants, NewHints;
    if incoming != [] {
      match MergeSnapshot(networkId, Some(current), incoming[0])
      case Err(_) => ChainNeverRollsBack(networkId, current, incoming[1..]);
      case Ok(result) =>
        RevocationsGrow(current.revocations, incoming[0].revocations);
        ChainNeverRollsBack(networkId, result.0, incoming[1..]);
    }
  }

  // ---------------------------------------------------------------- counting grants

  ghost predicate UniqueGrants(grants: seq<CapabilityGrant>) {
    forall i, j :: 0 <= i < j < |grants| ==> !SameGrant(grants[i], grants[j])
  }

  function GrantKeys(grants: seq<CapabilityGrant>): set<GrantKey> {
    set g | g in grants :: KeyOfGrant(g)
  }

  lemma KeysOfCons(first: CapabilityGrant, rest: seq<CapabilityGrant>, known: set<GrantKey>)
    requires KeyOfGrant(first) !in GrantKeys(rest)
    ensures |GrantKeys([first] + rest) - known| ==
            |GrantKeys(rest) - known| + if KeyOfGrant(first) in known then 0 else 1
  {
    var key, keys := KeyOfGrant(first), GrantKeys(rest);
    assert GrantKeys([first] + rest) == {key} + keys;
    if key in known {
      assert ({key} + keys) - known == keys - known;
    } else {
      assert ({key} + keys) - known == {key} + (keys - known);
    }
  }

  lemma UniqueHead(first: CapabilityGrant, rest: seq<CapabilityGrant>)
    requires UniqueGrants([first] + rest)
    ensures UniqueGrants(rest) && KeyOfGrant(first) !in GrantKeys(rest)
  {
    var all := [first] + rest;
    forall i, j | 0 <= i < j < |rest| ensures !SameGrant(rest[i], rest[j]) {
      assert all[i + 1] == rest[i] && all[j + 1] == rest[j];
    }
    forall i | 0 <= i < |rest| ensures KeyOfGrant(rest[i]) != KeyOfGrant(first) {
      assert all[i + 1] == rest[i] && all[0] == first;
    }
  }

  lemma KnownByKey(known: seq<CapabilityGrant>, grant: CapabilityGrant)
    ensures KnownGrant(known, grant) <==> KeyOfGrant(grant) in GrantKeys(known)
  {
  }

  /** Filtering unique grants by the keys of another list counts a difference of key sets. */
  lemma {:induction false} CountNew(known: seq<CapabilityGrant>, grants: seq<CapabilityGrant>)
    requires UniqueGrants(grants)
    ensures |NewGrants(known, grants)| == |GrantKeys(grants) - GrantKeys(known)|
  {
    hide UniqueGrants, GrantKeys, KnownGrant;
    if grants != [] {
      var first, rest := grants[0], grants[1..];
      assert grants == [first] + rest;
      UniqueHead(first, rest);
      CountNew(known, rest);
      KeysOfCons(first, rest, GrantKeys(known));
      KnownByKey(known, first);
    } else {
      NoKeys();
    }
  }

  lemma NoKeys()
    ensures GrantKeys([]) == {}
  {
  }

  lemma CountAll(grants: seq<CapabilityGrant>)
    requires UniqueGrants(grants)
    ensures |grants| == |GrantKeys(grants)|
  {
    CountNew([], grants);
    FilterAll(grants, (g: CapabilityGrant) => !KnownGrant([], g));
    assert GrantKeys(grants) - GrantKeys([]) == GrantKeys(grants);
  }

  lemma Partition<T>(a: set<T>, b: set<T>)
    ensures |a| == |a - b| + |a * b|
  {
    assert a == (a - b) + (a * b);
  }

  /** With unique keys on both sides the reported counts account for the change in size. */
  lemma GrantCountsBalance(networkId: string, current: AuthoritySnapshot, incoming: AuthoritySnapshot)
    requires MergeSnapshot(networkId, Some(current), incoming).Ok?
    requires UniqueGrants(current.grants) && UniqueGrants(incoming.grants)
    ensures var (merged, delta) := MergeSnapshot(networkId, Some(current), incoming).value;
            |current.grants| - delta.grantsRemoved + delta.grantsAdded == |merged.grants|
  {
    CountNew(current.grants, incoming.grants);
    CountNew(incoming.grants, current.grants);
    CountAll(current.grants);
    CountAll(incoming.grants);
    var a, b := GrantKeys(current.grants), GrantKeys(incoming.grants);
    hide NewGrants, GrantKeys, AppendRevocations, NewHints, UniqueGrants, ConflictingGrants;
    Partition(a, b);
    Partition(b, a);
    assert a * b == b * a;
  }
}
