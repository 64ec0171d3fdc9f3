/**
 The authority's state (cmd/authority) and the synchronisation of its revocation log with a daemon, by
 incremental fetches behind a sequence cursor and by full snapshots.
 */
module AuthorityLog {
  import opened Model
  import opened Policy
  import opened SnapshotMerge
  import D = DurableState

  datatype AuthorityMember = AuthorityMember(subjectSeed: string, membership: MembershipCertificate)

  datatype AuthorityState = AuthorityState(
    activeSubject: Option<string>, members: seq<AuthorityMember>, grants: seq<CapabilityGrant>,
    revocations: seq<RevocationRecord>, nextCapabilitySequence: nat, nextRevocationSequence: nat,
    hints: seq<BootstrapHint>, snapshot: AuthoritySnapshot)

  datatype IssuedArtifact =
    | IssuedToken(token: string)
    | IssuedMembership(subjectSeed: string, active: bool, membership: MembershipCertificate)
    | IssuedGrant(grant: CapabilityGrant)
    | IssuedRevocation(revocation: RevocationRecord)

  function FindMember(members: seq<AuthorityMember>, seed: string): Option<AuthorityMember> {
    if members == [] then None
    else if members[0].subjectSeed == seed then Some(members[0])
    else FindMember(members[1..], seed)
  }

  function PutMember(members: seq<AuthorityMember>, member: AuthorityMember): seq<AuthorityMember> {
    PutWhere(members, member, (m: AuthorityMember) => m.subjectSeed == member.subjectSeed)
  }

  function PutGrant(grants: seq<CapabilityGrant>, grant: CapabilityGrant): seq<CapabilityGrant> {
    PutWhere(grants, grant, (g: CapabilityGrant) => SameGrant(g, grant))
  }

  /** The view of one subject: its certificate, its grants, and the whole revocation log. */
  function ProjectedSnapshot(state: AuthorityState, subject: Option<string>): Option<AuthoritySnapshot> {
    if subject.Some? && FindMember(state.members, subject.value).None? then None
    else
      var seed := if subject.Some? then subject else state.activeSubject;
      var member := if seed.Some? then FindMember(state.members, seed.value) else None;
      var membership := if member.Some? then Some(member.value.membership) else None;
      Some(AuthoritySnapshot(
        state.snapshot.networkId, state.snapshot.enrollmentToken, membership,
        if membership.None? then []
        else Filter(state.grants, (g: CapabilityGrant) => g.subject == membership.value.subject),
        state.revocations, state.hints))
  }

  /** The projection for no particular subject always exists. */
  function Materialized(state: AuthorityState): AuthorityState {
    match ProjectedSnapshot(state, None)
    case None => state
    case Some(snapshot) => state.(snapshot := snapshot)
  }

  function Persist(state: AuthorityState, artifact: IssuedArtifact): AuthorityState {
    Materialized(
      match artifact
      case IssuedToken(token) => state.(snapshot := state.snapshot.(enrollmentToken := Some(token)))
      case IssuedMembership(seed, active, membership) =>
        state.(members := PutMember(state.members, AuthorityMember(seed, membership)),
               activeSubject := if active || state.activeSubject.None? then Some(seed) else state.activeSubject)
      case IssuedGrant(grant) =>
        state.(grants := PutGrant(state.grants, grant),
               nextCapabilitySequence := if state.nextCapabilitySequence >= grant.sequence + 1
                                         then state.nextCapabilitySequence else grant.sequence + 1)
      case IssuedRevocation(revocation) =>
        state.(revocations := if KnownRevocation(state.revocations, revocation) then state.revocations
                              else state.revocations + [revocation],
               nextRevocationSequence := if state.nextRevocationSequence >= revocation.sequence + 1
                                         then state.nextRevocationSequence else revocation.sequence + 1))
  }

  function FilteredRevocations(state: AuthorityState, after: Option<nat>): seq<RevocationRecord> {
    Filter(state.revocations, (r: RevocationRecord) => after.None? || r.sequence > after.value)
  }

  function MaxSequence(revocations: seq<RevocationRecord>): Option<nat> {
    if revocations == [] then None
    else
      var last := revocations[|revocations| - 1].sequence;
      match MaxSequence(revocations[..|revocations| - 1])
      case None => Some(last)
      case Some(m) => Some(if last >= m then last else m)
  }

  /** The state file as an object: each issued artifact updates it in place. */
  class AuthorityStore {
    var activeSubject: Option<string>
    var members: seq<AuthorityMember>
    var grants: seq<CapabilityGrant>
    var revocations: seq<RevocationRecord>
    var nextCapabilitySequence: nat
    var nextRevocationSequence: nat
    var hints: seq<BootstrapHint>
    var snapshot: AuthoritySnapshot

    ghost function State(): AuthorityState
      reads this
    {
      AuthorityState(activeSubject, members, grants, revocations, nextCapabilitySequence,
                     nextRevocationSequence, hints, snapshot)
    }

    constructor (initial: AuthorityState)
      ensures State() == initial
    {
      activeSubject, members, grants, revocations :=
        initial.activeSubject, initial.members, initial.grants, initial.revocations;
      nextCapabilitySequence, nextRevocationSequence :=
        initial.nextCapabilitySequence, initial.nextRevocationSequence;
      hints, snapshot := initial.hints, initial.snapshot;
    }

    method UpsertMember(member: AuthorityMember)
      modifies this`members
      ensures State() == old(State()).(members := PutMember(old(members), member))
    {
      members := StoreWhere(members, member, (m: AuthorityMember) => m.subjectSeed == member.subjectSeed);
    }

    method Materialize()
      modifies this`snapshot
      ensures State() == Materialized(old(State()))
    {
      var member := if activeSubject.Some? then FindMember(members, activeSubject.value) else None;
      var visible: seq<CapabilityGrant> := [];
      if member.Some? {
        visible := Filter(grants, (g: CapabilityGrant) => g.subject == member.value.membership.subject);
      }
      snapshot := AuthoritySnapshot(
        snapshot.networkId, snapshot.enrollmentToken,
        if member.Some? then Some(member.value.membership) else None, visible, revocations, hints);
    }

    method PersistIssuedArtifact(artifact: IssuedArtifact)
      modifies this
      ensures State() == Persist(old(State()), artifact)
    {
      match artifact {
        case IssuedToken(token) =>
          snapshot := snapshot.(enrollmentToken := Some(token));
        case IssuedMembership(seed, active, membership) =>
          UpsertMember(AuthorityMember(seed, membership));
          if active || activeSubject.None? {
            activeSubject := Some(seed);
          }
        case IssuedGrant(grant) =>
          grants := StoreWhere(grants, grant, (g: CapabilityGrant) => SameGrant(g, grant));
          if nextCapabilitySequence < grant.sequence + 1 {
            nextCapabilitySequence := grant.sequence + 1;
          }
        case IssuedRevocation(revocation) =>
          if !KnownRevocation(revocations, revocation) {
            revocations := revocations + [revocation];
          }
          if nextRevocationSequence < revocation.sequence + 1 {
            nextRevocationSequence := revocation.sequence + 1;
          }
      }
      Materialize();
    }
  }

  // ---------------------------------------------------------------- the log

  /** Strictly ascending sequence numbers, all below the next one to issue. */
  ghost predicate Ascending(log: seq<RevocationRecord>, next: nat) {
    && (forall i, j :: 0 <= i < j < |log| ==> log[i].sequence < log[j].sequence)
    && (forall i :: 0 <= i < |log| ==> log[i].sequence < next)
  }

  lemma {:induction false} MaxIsLast(log: seq<RevocationRecord>, next: nat)
    requires Ascending(log, next)
    ensures MaxSequence(log) == if log == [] then None else Some(log[|log| - 1].sequence)
  {
    if log != [] {
      MaxIsLast(log[..|log| - 1], next);
    }
  }

  predicate Behind(cursor: Option<nat>, r: RevocationRecord) {
    cursor.None? || r.sequence > cursor.value
  }

  lemma CursorSplits(log: seq<RevocationRecord>, next: nat, known: nat)
    requires Ascending(log, next) && known <= |log|
    ensures forall r :: r in log[..known] ==> !Behind(MaxSequence(log[..known]), r)
    ensures forall r :: r in log[known..] ==> Behind(MaxSequence(log[..known]), r)
  {
    MaxIsLast(log[..known], next);
    if known > 0 {
      var last := log[known - 1];
      assert log[..known][known - 1] == last;
      forall r | r in log[..known] ensures r.sequence <= last.sequence {
        var i :| 0 <= i < known && log[i] == r;
      }
      forall r | r in log[known..] ensures r.sequence > last.sequence {
        var i :| 0 <= i < |log| - known && log[known..][i] == r;
        assert log[known + i] == r;
      }
    }
  }

  /** What lies behind the cursor is the rest of the log. */
  lemma BehindCursor(state: AuthorityState, known: nat)
    requires Ascending(state.revocations, state.nextRevocationSequence) && known <= |state.revocations|
    ensures FilteredRevocations(state, MaxSequence(state.revocations[..known])) == state.revocations[known..]
  {
    var log := state.revocations;
    var cursor := MaxSequence(log[..known]);
    var keep := (r: RevocationRecord) => cursor.None? || r.sequence > cursor.value;
    CursorSplits(log, state.nextRevocationSequence, known);
    hide Ascending, MaxSequence;
    assert log == log[..known] + log[known..];
    FilterAppend(log[..known], log[known..], keep);
    FilterNone(log[..known], keep);
    FilterAll(log[known..], keep);
  }

  /** Delivering any slice of the log that starts within the known prefix extends the prefix to its end. */
  lemma {:induction false} DeliverSlice(log: seq<RevocationRecord>, next: nat, known: nat, start: nat, stop: nat)
    requires Ascending(log, next) && start <= stop <= |log| && start <= known <= |log|
    ensures AppendRevocations(log[..known], log[start..stop]) == log[..if known >= stop then known else stop]
    decreases stop - start
  {
    if start < stop {
      var slice := log[start..stop];
      assert slice[0] == log[start] && slice[1..] == log[start + 1..stop];
      if start < known {
        assert log[start] in log[..known] && SameRevocation(log[start], slice[0]);
        DeliverSlice(log, next, known, start + 1, stop);
      } else {
        forall r | r in log[..known] ensures !SameRevocation(r, slice[0]) {
          var i :| 0 <= i < known && log[i] == r;
          assert log[i].sequence < log[start].sequence;
        }
        assert log[..known] + [slice[0]] == log[..known + 1];
        DeliverSlice(log, next, known + 1, start + 1, stop);
      }
    } else {
      assert log[start..stop] == [];
    }
  }

  // ---------------------------------------------------------------- synchronisation

  datatype SyncWorld = SyncWorld(authority: AuthorityState, daemon: D.DaemonState)

  datatype SyncStep =
    | RevokeStep(record: RevocationRecord)
    | IssueStep(artifact: IssuedArtifact)
    | FetchStep
    | SnapshotStep(subject: Option<string>)
    | DelayedStep(start: nat, stop: nat)
    | LocalStep(step: D.DurableStep)

  /** The single writer draws the next sequence number for a revocation. */
  function Revoke(authority: AuthorityState, record: RevocationRecord): AuthorityState {
    Persist(authority, IssuedRevocation(record.(sequence := authority.nextRevocationSequence)))
  }

  function FetchRevocations(w: SyncWorld): D.DaemonState {
    D.ApplyRevocations(w.daemon, FilteredRevocations(w.authority, MaxSequence(w.daemon.revocations))).0
  }

  function MergeProjection(w: SyncWorld, subject: Option<string>): Result<D.DaemonState, D.DaemonError> {
    match ProjectedSnapshot(w.authority, subject)
    case None => Err(D.MissingMembership)
    case Some(snapshot) =>
      match D.SyncAuthority(w.daemon, snapshot)
      case Err(error) => Err(error)
      case Ok(result) => Ok(result.0)
  }

  function Step(w: SyncWorld, step: SyncStep): SyncWorld {
    match step
    case RevokeStep(record) => w.(authority := Revoke(w.authority, record))
    case IssueStep(artifact) => if artifact.IssuedRevocation? then w else w.(authority := Persist(w.authority, artifact))
    case FetchStep => w.(daemon := FetchRevocations(w))
    case SnapshotStep(subject) =>
      (match MergeProjection(w, subject) case Err(_) => w case Ok(daemon) => w.(daemon := daemon))
    case DelayedStep(start, stop) =>
      if start <= stop <= |w.authority.revocations| && start <= |w.daemon.revocations| then
        w.(daemon := D.ApplyRevocations(w.daemon, w.authority.revocations[start..stop]).0)
      else w
    case LocalStep(step) =>
      if step.SyncStep? || step.RevocationsStep? then w else w.(daemon := D.Step(w.daemon, step))
  }

  function Run(w: SyncWorld, steps: seq<SyncStep>): SyncWorld
    decreases |steps|
  {
    if steps == [] then w else Run(Step(w, steps[0]), steps[1..])
  }

  ghost predicate InSync(w: SyncWorld) {
    && Ascending(w.authority.revocations, w.authority.nextRevocationSequence)
    && w.daemon.revocations <= w.authority.revocations
  }

  lemma RevokeAppends(authority: AuthorityState, record: RevocationRecord)
    requires Ascending(authority.revocations, authority.nextRevocationSequence)
    ensures var after := Revoke(authority, record);
            && after.revocations == authority.revocations + [record.(sequence := authority.nextRevocationSequence)]
            && after.nextRevocationSequence == authority.nextRevocationSequence + 1
            && Ascending(after.revocations, after.nextRevocationSequence)
  {
    forall r | r in authority.revocations
      ensures !SameRevocation(r, record.(sequence := authority.nextRevocationSequence))
    {
    }
  }

  lemma OtherIssuesKeepLog(authority: AuthorityState, artifact: IssuedArtifact)
    requires !artifact.IssuedRevocation?
    ensures Persist(authority, artifact).revocations == authority.revocations
    ensures Persist(authority, artifact).nextRevocationSequence == authority.nextRevocationSequence
  {
  }

  lemma FetchCatchesUp(w: SyncWorld)
    requires InSync(w)
    ensures FetchRevocations(w).revocations == w.authority.revocations
  {
    var log, known := w.authority.revocations, |w.daemon.revocations|;
    assert w.daemon.revocations == log[..known];
    BehindCursor(w.authority, known);
    DeliverSlice(log, w.authority.nextRevocationSequence, known, known, |log|);
    assert log[known..|log|] == log[known..] && log[..|log|] == log;
  }

  lemma SnapshotCatchesUp(w: SyncWorld, subject: Option<string>)
    requires InSync(w) && MergeProjection(w, subject).Ok?
    ensures MergeProjection(w, subject).value.revocations == w.authority.revocations
  {
    hide D.MergedPathCandidates, D.DeniedPeers;
    var log, known := w.authority.revocations, |w.daemon.revocations|;
    assert w.daemon.revocations == log[..known];
    DeliverSlice(log, w.authority.nextRevocationSequence, known, 0, |log|);
    assert log[0..|log|] == log && log[..|log|] == log;
  }

  lemma StepStaysInSync(w: SyncWorld, step: SyncStep)
    requires InSync(w)
    ensures InSync(Step(w, step))
  {
    hide Revoke, Persist, FetchRevocations, MergeProjection, D.Step, D.DeniedPeers;
    match step
    case RevokeStep(record) => RevokeAppends(w.authority, record);
    case IssueStep(artifact) =>
      if !artifact.IssuedRevocation? {
        OtherIssuesKeepLog(w.authority, artifact);
      }
    case FetchStep => FetchCatchesUp(w);
    case SnapshotStep(subject) =>
      if MergeProjection(w, subject).Ok? {
        SnapshotCatchesUp(w, subject);
      }
    case DelayedStep(start, stop) =>
      var log, known := w.authority.revocations, |w.daemon.revocations|;
      assert w.daemon.revocations == log[..known];
      if start <= stop <= |log| && start <= known {
        DeliverSlice(log, w.authority.nextRevocationSequence, known, start, stop);
      }
    case LocalStep(local) => LocalKeepsRevocations(w.daemon, local);
  }

  lemma LocalKeepsRevocations(state: D.DaemonState, step: D.DurableStep)
    ensures !step.SyncStep? && !step.RevocationsStep? ==> D.Step(state, step).revocations == state.revocations
  {
    hide D.MergedPathCandidates, D.SyncAuthority;
  }

  /**
   Convergence: under any interleaving of issues, fetches behind the cursor, snapshot merges, delayed
   deliveries and local steps the daemon's list is a prefix of the log; after a fetch or an accepted
   snapshot it is the whole log.
   */
  lemma {:induction false} SyncConverges(w: SyncWorld, steps: seq<SyncStep>)
    requires InSync(w)
    ensures var after := Run(w, steps);
            && InSync(after)
            && Step(after, FetchStep).daemon.revocations == after.authority.revocations
            && (forall subject :: MergeProjection(after, subject).Ok? ==>
                  Step(after, SnapshotStep(subject)).daemon.revocations == after.authority.revocations)
    decreases |steps|
  {
    if steps == [] {
      hide MergeProjection, FetchRevocations;
      FetchCatchesUp(w);
      forall subject | MergeProjection(w, subject).Ok?
        ensures Step(w, SnapshotStep(subject)).daemon.revocations == w.authority.revocations
      {
        SnapshotCatchesUp(w, subject);
      }
    } else {
      hide Step, MergeProjection;
      StepStaysInSync(w, steps[0]);
      SyncConverges(Step(w, steps[0]), steps[1..]);
    }
  }
}
