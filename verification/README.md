# Quip: a verified model of its sessions, relays and authority state

Quip is a peer-to-peer node daemon. This project models the state machines at its core in Dafny and proves what they
keep, over all inputs and all runs:

- **The session registry** (`Transport`, `QuicAdapter`): live sessions under deterministic ids, the bounded ledger of
  closed sessions, the bounded event buffer, reconnect suppressions and attempts. `Transport` gives every operation as
  a function on one value, `World`; the class `QuicTransportAdapter` updates its fields in place and is proved equal to
  it. `SessionFields` says field by field what the operations write; `Ledger`, `LedgerRuns`, `SessionKeys` and
  `Calendar` hold what is true of the parts.
- **The relay service** (`RelayWire`, `RelayRuns`): pending, open and closed sessions behind quotas and authorization.
- **Both together** (`RelayLeases`, `AdapterRuns`): which relay sessions are open for whom, through every connect,
  migration and close, including the double close of a migration.
- **The control plane** (`ControlPlane`, `ControlLoops`, `ControlTraces`, `ControlRuns`, `ReconcileProofs`,
  `ReevaluationProofs`, `RouteFields`, `ListenerProofs`, `RelayClasses`, `Counterexamples`): the reconcile
  loop and the authority reevaluation, as folds, as class methods with loops, and as runs of adapter operations.
- **The durable authority state** (`Policy`, `Routing`, `PathCosts`, `SnapshotMerge`, `GrantIdentity`, `HintCounts`,
  `DurableState`, `DurableProofs`, `CandidateProofs`, `PlanProofs`, `SyncProofs`, `RouteStability`, `AuthorityLog`,
  `StateSchema`): snapshot merges, cached fields, path candidates and planned routes, the revocation log and its
  synchronisation, the migration of the stored document.
- **The reconnect driver** (`Driver`, `DriverRuns`): when the daemon dials, how often, and how long it waits.
- **All of it together** (`WholeRuns`): runs that mix driver cycles, control-plane cycles and single operations.

The modules whose lemmas end in `OnFields` or `Exactly` state results on the fields of the records involved, without the
functions that the operations are made of: a lemma about runs says that a result is what such a function gives, and
these say what that is. `Texts` and `Model` hold the small functions on texts and sequences.

Clock readings, random ids, the outcome of the credential checks and the reachability of relays are inputs of the steps,
so every theorem holds for all of them. Signatures are a boolean input; the id hash is any function, injective where a
theorem says so. A text is a sequence of characters that stand for its bytes. `dafny verify dfyconfig.toml` checks the
whole project.

## What the proofs found

- Reconciling reaches a fixed point only if each remaining session's peer has an address: a relay route to a peer
  without one yields a session that never matches its route (`ReconcileFixedPoint`, `NeverSettles`).
- A failed migration inside a reevaluation suppresses the key, but the report does not count it
  (`ReevaluationEnforces`, `UncountedSuppression`).
- A refusal is attributed by looking for the words "revoked" and "denied" in its text, and that text contains the
  name of the protocol (`CauseExactly`).
- Path selection and relay admission read the announced traffic classes differently. Bulk goes by two names, and a
  relay none of whose names selection recognises, such as one that announces "BulkTransfer" alone, is selected for
  Control and Interactive and refuses both (`SelectionAndAdmission`, `BulkTransferAlone`).
- An accepted open writes a pending record at the caller's attempt id and never removes it
  (`OpeningDisturbsNothingElse`).
- A grant behind another of the same key can be lost in a sync that reports no change (`ShadowedGrantIsLost`), and
  merging a snapshot with two such grants a second time is refused (`MergeAgain`).
- Hint counts account for the change in size exactly when as many current as incoming hints have partners
  (`HintCountsBalanceExactly`), which unique peers guarantee (`HintCountsBalance`) and hints without a peer can break
  (`HintCountsNeedNotBalance`).
- A sync that reports no change can still change routes, through an endpoint of a relay or an address of a hint
  (`RelayEndpointsMoveRoutes`, `HintAddressesMoveRoutes`). `RouteKeptExactly` says which routes stay when the candidates
  do, and `RoutesUnchanged` gives a condition, checkable before the sync, that keeps all of them; it is sufficient, not
  necessary.
- Between memberships of one issue time the expiry is compared, but the comparison never decides
  (`AcceptedMembership`).
- The parts of a Bulk score do not add up to its total (`TotalIsSumOfParts`).
- The year field is cut to 32 bits, and is right exactly within the seconds that `FromUnixRecomposes` names.
- The schema migration reports each text with a legacy prefix as migrated, although the rewrite replaces each prefix
  by itself (`RewriteIsIdentity`, `ReportExactly`). The test at crates/fabric/src/lib.rs:4023 speaks of rewriting
  legacy protocols; the model follows the code.
- When a relay cannot be reached, a close removes the record and leaves the relay session open; `RunConserves` gives
  the exact set left behind.

## Model

| member | source | states |
|---|---|---|
| `Calendar.CivilIsValid` | crates/quic/src/lib.rs:1222-1234 | every integer day number gives a month in 1..12 and a day within that month of that year |
| `Calendar.CivilSuccessor` | crates/quic/src/lib.rs:1222-1234 | consecutive day numbers give consecutive proleptic Gregorian dates, across months, leap days, centuries and eras |
| `Calendar.CivilInvertsDayNumber` | crates/quic/src/lib.rs:1222-1234 | counting the days from 1970-01-01 to the computed date gives back the day number, for every integer |
| `Calendar.DayNumberInvertsCivil` | crates/quic/src/lib.rs:1222-1234 | and from any valid date, its day number computes that date: the two are inverse both ways |
| `Calendar.FromUnixRecomposes` | crates/quic/src/lib.rs:1207-1220 | the clock fields are in range and recompose to the input second; the 32-bit year is the true one exactly between two stated seconds |
| `RelayWire.RelayRuntime.Apply` | crates/relay/src/lib.rs:98-151 | one frame applied in place: the new table and the verdict are those of the frame machine, in every state |
| `RelayWire.RelayRuntime.CountOpen` | crates/relay/src/lib.rs:217-236 | the counting loop gives the number of open sessions of the source |
| `RelayWire.RelayService.Open` | crates/relay/src/lib.rs:168-272 | opening applies the checks in order (proof, class, destination, quota, id in use) and leaves a pending and an open record, or changes nothing |
| `RelayWire.RelayService.Close` | crates/relay/src/lib.rs:274-284 | closing a session by id, in place |
| `RelayRuns.AuthorizedExactly` | crates/relay/src/lib.rs:556-575 | a destination is authorized exactly by its first entry, which must list the protocol when the request names one |
| `RelayRuns.AdmittedExactly` | crates/relay/src/lib.rs:168-271 | within the quotas a request is admitted exactly when its proof holds, the class is supported, the destination authorized, the source below its quota and the drawn id unused |
| `RelayRuns.StepKeepsQuotas` | crates/relay/src/lib.rs:168-284 | one open or close keeps every source within its quota, whatever attempt id the caller names |
| `RelayRuns.QuotaSafety` | crates/relay/src/lib.rs:217-271 | over every run, a source with a quota never has more open sessions than its first matching quota, so the 32-bit cast of the count loses nothing |
| `RelayRuns.QuotaSafetyByEntry` | crates/relay/src/lib.rs:217-236 | over every run, for the first quota entry that names a source, wherever it stands in the list: no more open sessions of that source than the entry says |
| `RelayRuns.CapacityExactly` | crates/relay/src/lib.rs:168-236 | the answer is capacity exceeded, with the table unchanged, if and only if the earlier checks pass and the first entry of the source is used up |
| `RelayRuns.OpenRecordsRequest` | crates/relay/src/lib.rs:98-116 | an accepted open writes, field by field, the request under the drawn id as open and under the attempt id as pending, and nothing else |
| `RelayRuns.RunKeepsAuthorization` | crates/relay/src/lib.rs:168-272 | over every run each open session has a supported class and an authorized destination and protocol |
| `RelayRuns.NeverReopened` | crates/relay/src/lib.rs:133-149 | an id that is present and not open never opens again, and Data and Health frames on it are rejected for ever |
| `RelayRuns.CloseStaysIdempotent` | crates/relay/src/lib.rs:144-149 | an id once known can be closed at any later time, and closing twice is closing once |
| `RelayRuns.OpeningDisturbsNothingElse` | crates/relay/src/lib.rs:100-113 | an accepted open leaves every other record alone if and only if the attempt id names no other record (or this very pending request) |
| `Ledger.PushTerminalRefines` | crates/quic/src/lib.rs:1012-1026 | recording a closed session in the bounded ledger is appending it to the whole history of closes |
| `Ledger.LedgerRefinesHistory` | crates/quic/src/lib.rs:1012-1026 | after any closes the ledger is the last 32 distinct sessions in the order of their last close |
| `Ledger.LastClosesIds` | crates/quic/src/lib.rs:1012-1026 | that order loses no session and invents none |
| `Ledger.LastClosesDistinct` | crates/quic/src/lib.rs:1012-1026 | and lists none twice |
| `Ledger.EventsRefineHistory` | crates/quic/src/lib.rs:1053-1074 | after any events the buffer holds the last 256 of the whole history |
| `Ledger.RecentEventsOfHistory` | crates/quic/src/lib.rs:273-288 | recent events are the last min(max(limit, 1), kept) of the history, in chronological order |
| `LedgerRuns.RunRecords` | crates/quic/src/lib.rs:705-758 | over every run of the adapter the ledger is the 32 last distinct sessions that the run and its past closed, as they were when closed |
| `LedgerRuns.LedgerSharesIds` | crates/quic/src/lib.rs:931-999 | a connected session takes the id of its key, and shares it with the ledger exactly when the ledger had it |
| `QuicAdapter.PopFront` | crates/quic/src/lib.rs:1071-1073 | the trimming loop leaves the last n elements |
| `Model.Retain` | crates/quic/src/lib.rs:600-604 | the retain loop of sessions, suppressions and attempts keeps exactly what it should, in order |
| `Model.StoreWhere` | cmd/authority/src/main.rs:887-896 | the search-and-replace loop of suppressions, attempts, members and grants rewrites the first match or appends |
| `QuicAdapter.RelayRegistry.OpenSession` | crates/relay/src/lib.rs:458-467 | opening at the relay behind an endpoint, in place; unreachable or unknown relays reject |
| `QuicAdapter.RelayRegistry.CloseSession` | crates/quic/src/lib.rs:1040-1051 | closing there; a session without a control endpoint is an invalid route |
| `QuicAdapter.QuicTransportAdapter.EmitRuntimeEvent` | crates/quic/src/lib.rs:1053-1074 | the buffer stays the last 256 of the whole event history |
| `QuicAdapter.QuicTransportAdapter.RecordTerminalSession` | crates/quic/src/lib.rs:1012-1026 | the ledger stays the last 32 distinct closes of the whole history |
| `QuicAdapter.QuicTransportAdapter.RecentEvents` | crates/quic/src/lib.rs:273-288 | the two reversals and the cut return the newest events oldest first |
| `QuicAdapter.QuicTransportAdapter.SessionForRoute` | crates/quic/src/lib.rs:767-899 | opens the relay session for a route with a relay plan, and builds the record |
| `QuicAdapter.QuicTransportAdapter.UpsertRuntimeSession` | crates/quic/src/lib.rs:931-999 | replacing a record closes the relay session it gives up; the new registry and relays are those of the specification |
| `QuicAdapter.QuicTransportAdapter.Connect` | crates/quic/src/lib.rs:118-151 | in place, the whole new state and outcome of a connect |
| `QuicAdapter.QuicTransportAdapter.UpdateSessionState` | crates/quic/src/lib.rs:234-271 | in place, the record marked and the event emitted, or nothing for an unknown id |
| `QuicAdapter.QuicTransportAdapter.Migrate` | crates/quic/src/lib.rs:647-703 | in place, the whole new state of a migration, with both closes of the old relay session |
| `QuicAdapter.QuicTransportAdapter.RemoveRuntimeSession` | crates/quic/src/lib.rs:1001-1010 | in place, takes the record out of the registry and returns it |
| `QuicAdapter.QuicTransportAdapter.RecordClosed` | crates/quic/src/lib.rs:732-757 | in place, the ledger and the event at the end of a close, and the one record added to the history |
| `QuicAdapter.QuicTransportAdapter.CloseSession` | crates/quic/src/lib.rs:705-758 | in place, the whole new state of a close; the record is gone even when the relay cannot be reached |
| `QuicAdapter.QuicTransportAdapter.SuppressReconnect` | crates/quic/src/lib.rs:290-330 | in place, suppressing a key |
| `QuicAdapter.QuicTransportAdapter.ClearReconnectSuppression` | crates/quic/src/lib.rs:332-369 | in place, clearing a key, with an event only when it was there |
| `QuicAdapter.QuicTransportAdapter.ScheduleReconnect` | crates/quic/src/lib.rs:478-580 | in place, recording a failed attempt and its next time |
| `QuicAdapter.QuicTransportAdapter.ClearReconnectAttempt` | crates/quic/src/lib.rs:582-635 | in place, clearing the attempts of a key |
| `QuicAdapter.QuicTransportAdapter.Listen` | crates/quic/src/lib.rs:153-182 | in place, registering a listener |
| `QuicAdapter.QuicTransportAdapter.UpdateListenerState` | crates/quic/src/lib.rs:389-405 | in place, changing the state of a known listener |
| `QuicAdapter.QuicTransportAdapter.ActiveSessions` | crates/quic/src/lib.rs:184-192 | lists each live session exactly once |
| `QuicAdapter.QuicTransportAdapter.ActiveListenerIds` | crates/quic/src/lib.rs:379-387 | lists each listener exactly once |
| `RelayLeases.OpenAddsLease` | crates/relay/src/lib.rs:168-272 | with a fresh attempt id an accepted open adds exactly one session open for the source, unknown before |
| `RelayLeases.CloseRemovesLease` | crates/relay/src/lib.rs:274-284 | closing a known session at a reachable relay removes exactly that one |
| `RelayLeases.ConnectConserves` | crates/quic/src/lib.rs:118-151 | after a connect no record holds a session that is not open or is held twice, and a session is left open without a holder only by a blocked close |
| `RelayLeases.DoubleCloseConserves` | crates/quic/src/lib.rs:670-688 | closing the old relay session in the migration and again while storing its result releases it once and nothing else |
| `RelayLeases.MigrateConserves` | crates/quic/src/lib.rs:647-703 | the same account for a whole migration, with the exact set that a blocked close leaks |
| `RelayLeases.CloseConserves` | crates/quic/src/lib.rs:705-758 | the same account for a close |
| `AdapterRuns.StepConserves` | crates/quic/src/lib.rs:118-151 | the same account for any step: own operations, changes of reachability, other users of the relays |
| `AdapterRuns.RunConserves` | crates/quic/src/lib.rs:647-758 | over any run: nothing is released early or held twice, and what is open without a holder is exactly what blocked closes left |
| `AdapterRuns.ReachableRunLeaksNothing` | crates/quic/src/lib.rs:1040-1051 | with the relays reachable no step of a run leaks |
| `AdapterRuns.RelaysConserved` | crates/quic/src/lib.rs:931-999 | with the relays reachable, over every run the sessions open for this adapter are one to one the relay records it holds |
| `AdapterRuns.MigrationKeepsIdentity` | crates/quic/src/lib.rs:661-703 | a successful migration keeps the id and the creation time, takes the route's key, and touches no other record |
| `SessionKeys.IdBytesDetermineKey` | crates/quic/src/lib.rs:907-920 | for peer ids of one length, equal hashed bytes mean equal local peer, peer, class and protocol text, and conversely: the path plays no part |
| `SessionKeys.SessionIdsIdentifyKeys` | crates/quic/src/lib.rs:907-920 | so with an injective hash two keys share an id exactly when they are equal |
| `SessionKeys.LengthsMatter` | crates/quic/src/lib.rs:907-920 | without one length two different pairs of peers hash the same bytes |
| `SessionKeys.ConnectTouches` | crates/quic/src/lib.rs:118-151 | a connect changes nothing but sessions, events and relays |
| `SessionKeys.MigrateTouches` | crates/quic/src/lib.rs:647-703 | nor does a migration |
| `SessionKeys.OneSessionPerKey` | crates/quic/src/lib.rs:931-999 | over every run of connects and own-key migrations no two live sessions have the same key |
| `SessionKeys.ConnectTouchesOneKey` | crates/quic/src/lib.rs:118-151 | a connect leaves the session of every other key as it was |
| `SessionKeys.PutFinds` | crates/quic/src/lib.rs:290-330 | suppressing a key shows for that key only, and adds an entry only when there was none |
| `SessionKeys.PutKeepsUnique` | crates/quic/src/lib.rs:290-330 | suppression keys stay unique |
| `SessionKeys.DropFinds` | crates/quic/src/lib.rs:332-369 | clearing a key leaves every other key as it was |
| `SessionKeys.DropKeepsUnique` | crates/quic/src/lib.rs:332-369 | clearing removes exactly one entry when there was one |
| `SessionKeys.StepKeepsDown` | crates/quic/src/lib.rs:118-139 | no operation but a clear brings a session of a suppressed key back |
| `SessionFields.DirectOnFields` | crates/quic/src/lib.rs:777-815 | a session without a relay: exactly which refusal, and every field of the record, with the id hashed from instance, peers, class name and protocol in that order |
| `SessionFields.RelayedOnFields` | crates/quic/src/lib.rs:819-899 | a session through a relay: every field of the record, and the relay holds an open session from the local peer to the peer under its transport id |
| `SessionFields.RelayedEndpointExactly` | crates/quic/src/lib.rs:870-875 | its endpoint: the first destination of the plan, else of the route, else the name of the peer |
| `SessionFields.ConnectRefusedExactly` | crates/quic/src/lib.rs:118-151 | a connect is refused by policy exactly when a suppression has the peer, protocol and class of the route; an accepted one is in the registry |
| `SessionFields.ReleasedExactly` | crates/quic/src/lib.rs:931-999 | storing over a record releases its relay session exactly when it had one and the new record is not on it, and what a release does to the relays |
| `SessionFields.ClosedOnFields` | crates/quic/src/lib.rs:705-758 | a close: what is released, and each field of the record it leaves in the ledger, where the registry's reasons go before the caller's |
| `SessionFields.ChangeIsAnnounced` | crates/quic/src/lib.rs:234-271 | a state change is the newest event, named closing or failed for these two states only |
| `SessionFields.ClearedExactly` | crates/quic/src/lib.rs:582-620 | clearing attempts is announced as success exactly when the reason contains one of two words |
| `SessionFields.AttemptOnFields` | crates/quic/src/lib.rs:478-530 | a failure on record: one more, given up from the maximum on, the next time is now and the wait, saturating |
| `SessionFields.WaitsDouble` | crates/quic/src/lib.rs:500-515 | the waits: the base first, then twice the last one up to the maximum, and the same again after the 17th |
| `Routing.SelectsFirstMinimum` | crates/routing/src/lib.rs:211-223 | the chosen path supports the class, no supporting path scores lower, and the first of equals wins; none is chosen only when none supports the class |
| `Routing.TotalIsSumOfParts` | crates/routing/src/lib.rs:131-161 | the reported parts add up to the total exactly when the class is not Bulk or its loss cost rounds to nothing |
| `PathCosts.FreePath` | crates/routing/src/lib.rs:131-161 | a path whose measurements are all zero costs nothing, and 250 for Bulk, where throughput is all that is measured |
| `PathCosts.RttStep` | crates/routing/src/lib.rs:131-143 | one more millisecond of round trip costs 1 for Control and Interactive and nothing for Bulk |
| `PathCosts.BackgroundRttStep` | crates/routing/src/lib.rs:152-159 | for Background two more milliseconds cost 1, and one only from an odd time on |
| `PathCosts.JitterStep` | crates/routing/src/lib.rs:131-161 | one more millisecond of jitter costs 2 for Control and Interactive and nothing else |
| `PathCosts.PenaltyStep` | crates/routing/src/lib.rs:131-161 | one more of penalty costs 1 for every class |
| `PathCosts.ThroughputStep` | crates/routing/src/lib.rs:144-151 | for Bulk four more Mbps take off 1 until nothing is left, at 1000; the other classes do not pay for throughput |
| `PathCosts.LossStep` | crates/routing/src/lib.rs:131-161 | a tenth of a percent of loss costs 1 for Control and Interactive, an eighth for Background, below the 32-bit limit of the cast; Bulk does not pay |
| `PathCosts.LossSaturates` | crates/routing/src/lib.rs:131-161 | beyond the 32-bit range any loss costs the largest 32-bit number |
| `PathCosts.SmallLossIsFree` | crates/routing/src/lib.rs:131-161 | less than one such step costs nothing |
| `PathCosts.SelectsNoWorse` | crates/routing/src/lib.rs:211-223 | a path is selected exactly when some path serves the class, and no serving path is better than it in one measurement |
| `PathCosts.BetterIsSelected` | crates/routing/src/lib.rs:211-223 | of two paths that differ in one measurement the better one is selected, in either order |
| `Policy.EvaluateIsFirstMatch` | crates/policy/src/lib.rs:36-80 | allowed exactly when the first rule that matches is an allow rule |
| `Policy.MatchesOnFields` | crates/policy/src/lib.rs:43-69 | a rule matches exactly when it names no other network, source or protocol and some grant holds what it requires for that protocol |
| `SnapshotMerge.PushRevocations` | crates/control/src/lib.rs:230-239 | the loop appends each revocation that is not known yet, and counts the pushes |
| `SnapshotMerge.CheckGrants` | crates/control/src/lib.rs:202-211 | the loop finds whether an incoming grant differs from the first current one of its key |
| `SnapshotMerge.CountNewGrants` | crates/control/src/lib.rs:212-227 | the counting of added or removed grants |
| `SnapshotMerge.CountNewHints` | crates/control/src/lib.rs:243-258 | the counting of added or removed hints |
| `SnapshotMerge.Merge` | crates/control/src/lib.rs:178-273 | the whole merge: refusals in order, the merged snapshot, the delta |
| `SnapshotMerge.AppendCovers` | crates/control/src/lib.rs:230-239 | after the merge every current and every incoming revocation is known |
| `SnapshotMerge.MergeAgain` | crates/control/src/lib.rs:178-273 | merging an accepted snapshot again gives the same state and a zero delta if and only if its grants of equal key are equal; otherwise it is refused as a conflict |
| `SnapshotMerge.SelfConflict` | crates/control/src/lib.rs:276-281 | a list of grants conflicts with itself exactly when two of one key differ |
| `SnapshotMerge.AcceptedMembership` | crates/control/src/lib.rs:296-324 | a membership is accepted next to a current one exactly when the subject is the same and it is newer or the very same; the accepted one always replaces it, so the expiry never decides |
| `SnapshotMerge.ChainNeverRollsBack` | crates/control/src/lib.rs:296-324 | over any chain of merges the subject stays, the issue time never goes back, and old revocations stay a prefix |
| `SnapshotMerge.GrantCountsBalance` | crates/control/src/lib.rs:212-227 | with unique keys, current - removed + added = merged |
| `GrantIdentity.MergeConflictExactly` | crates/control/src/lib.rs:195-211 | next to an accepted membership the merge is a conflict if and only if some incoming grant differs from the first current one with its network, issuer, subject and sequence number |
| `GrantIdentity.GrantCountsOnFields` | crates/control/src/lib.rs:212-227 | no grant counts as added exactly when each incoming one has a current one with those four fields, and likewise for removed |
| `GrantIdentity.SameHintOnFields` | crates/control/src/lib.rs:289-334 | two hints are one when they name one peer, or, unless both name one, list the same addresses but for white space around them |
| `GrantIdentity.AppendedOnFields` | crates/control/src/lib.rs:230-239 | what the merge adds to the revocations: incoming ones without an equal in sequence number, issuer and target, each once |
| `GrantIdentity.IssuingKeepsGrants` | cmd/authority/src/main.rs:772-783 | issuing a grant whose four fields no stored grant has keeps every stored grant and adds this one at the end |
| `GrantIdentity.ProjectionExactly` | cmd/authority/src/main.rs:898-940 | the view of a subject: there is none exactly for a named subject that is unknown, and it shows the certificate of the first member of that seed and exactly the grants of its subject |
| `HintCounts.HintCountsBalanceExactly` | crates/control/src/lib.rs:243-258 | for hints, current - removed + added = merged if and only if as many current as incoming hints have a partner in the other list |
| `HintCounts.OneToOneBalances` | crates/control/src/lib.rs:289-294 | that is so when no hint has two partners in the other list |
| `HintCounts.HintCountsBalance` | crates/control/src/lib.rs:243-258 | and hence when every hint names a peer and none is named twice, as for grants |
| `HintCounts.HintCountsNeedNotBalance` | crates/control/src/lib.rs:289-294 | in general it is not: the comparison is not transitive, and one hint without a peer answers for two |
| `HintCounts.BalanceWithoutOneToOne` | crates/control/src/lib.rs:289-294 | one to one is sufficient only: counts balance where every hint has two partners |
| `DurableState.MergeCandidates` | crates/fabric/src/lib.rs:3006-3022 | the loops of the merge of path candidates |
| `DurableState.ReceiveRevocations` | crates/fabric/src/lib.rs:578-595 | the loop that takes revocations and recomputes the denials |
| `DurableProofs.DeniedExactly` | crates/fabric/src/lib.rs:3590-3621 | a peer is denied exactly when some revocation names it, or names the current certificate of its subject |
| `DurableProofs.AllowedExactly` | crates/fabric/src/lib.rs:496-536 | a protocol is allowed for a peer exactly when the peer is not denied and some active local grant covers the protocol |
| `DurableProofs.CapabilityNames` | crates/fabric/src/lib.rs:3623-3629 | different protocols need different capabilities, unless one is named as the capability of the other |
| `DurableProofs.AllowedOnFields` | crates/fabric/src/lib.rs:489-536 | a protocol is allowed for a peer exactly when no denial names the peer and some grant of the local peer, not revoked by subject and sequence number, lists the protocol and its capability |
| `DurableProofs.LocalReasons` | crates/fabric/src/lib.rs:507-536 | the reason of a local decision: no active grant at all, no matching rule, or how many active grants there are |
| `DurableProofs.PushAllShape` | crates/fabric/src/lib.rs:3266-3276 | pushing candidates keeps the front, adds unique keys only, loses no key |
| `DurableProofs.MergedShape` | crates/fabric/src/lib.rs:3006-3022 | observed candidates come first in their order, synthesized ones follow with unique keys, none is lost |
| `DurableProofs.MergeIdempotent` | crates/fabric/src/lib.rs:3006-3022 | computing the candidates again changes nothing |
| `DurableProofs.PutPeerSorted` | crates/fabric/src/lib.rs:2932-2960 | inserting a peer keeps the store sorted and changes that entry only |
| `DurableProofs.FreshStateAgrees` | crates/fabric/src/lib.rs:734-775 | a state made from a snapshot has its cached fields equal to their recomputation |
| `DurableProofs.StepKeepsCaches` | crates/fabric/src/lib.rs:578-621 | each step keeps that, whatever arrives |
| `DurableProofs.CachesAgreeAlways` | crates/fabric/src/lib.rs:697-732 | so it holds in every reachable state |
| `DurableProofs.RevocationIsPermanent` | crates/fabric/src/lib.rs:489-505 | once a peer is revoked it is denied for every protocol in every later state |
| `DurableProofs.GrantRevocationIsPermanent` | crates/fabric/src/lib.rs:3632-3645 | once a grant is revoked no later decision rests on a grant of that subject and sequence number |
| `DurableProofs.ZeroDeltaExactly` | crates/fabric/src/lib.rs:697-732 | after a sync with a zero delta the decision is exactly that of the old state without the grants that stand behind another of their key |
| `DurableProofs.ZeroDeltaKeepsPolicy` | cmd/quipd/src/main.rs:2851-2859 | so with no such grants a zero delta leaves every decision as it was |
| `DurableProofs.ShadowedGrantIsLost` | crates/control/src/lib.rs:195-229 | with such a grant an accepted sync of zero delta can take a permission away |
| `DurableProofs.RelayMapKeepsPolicy` | crates/fabric/src/lib.rs:597-621 | a relay map changes no policy decision |
| `DurableProofs.SkippingIsSound` | cmd/quipd/src/main.rs:2851-2859 | when the daemon skips the reevaluation after a sync, every decision is as before, whatever the relay map brought |
| `DurableProofs.FirstSyncReevaluates` | crates/fabric/src/lib.rs:1635-1653 | the first sync leaves a state whose cached fields agree with their recomputation, and its report asks for a reevaluation |
| `DurableProofs.RelayCountExactly` | crates/fabric/src/lib.rs:597-615 | the relay map is counted as no change exactly when it is older or names known peers only |
| `SyncProofs.ReachabilityGained` | crates/fabric/src/lib.rs:3514-3533 | a reprobe never loses reachability: UDP comes with a mapped port or a public address, IPv6 with a public IPv6 address, and only an unknown or blocked NAT is corrected |
| `SyncProofs.ProbeRecorded` | crates/fabric/src/lib.rs:3535-3553 | it records one probe, passed exactly when something is reachable, behind the last seven |
| `SyncProofs.FirstStateExactly` | crates/fabric/src/lib.rs:734-775 | a first state exists exactly for a snapshot of the network with a membership; its fields and denials are those of the snapshot |
| `SyncProofs.SyncFailsExactly` | crates/fabric/src/lib.rs:697-706 | a later sync fails exactly as its merge does: a missing membership cannot occur |
| `SyncProofs.SyncedOnFields` | crates/fabric/src/lib.rs:697-732 | a later sync takes grants and hints from the snapshot, keeps the local peer and old revocations, counts the new ones, and denies exactly what they name |
| `SyncProofs.RelayMapOnFields` | crates/fabric/src/lib.rs:597-621 | a relay map is taken unless the present one is newer, changes nothing but relays, peers and candidates, and counts the announcements of peers not announced before |
| `SyncProofs.OriginOnFields` | crates/fabric/src/lib.rs:1623-1667 | the report of a sync with the origin: everything counts as added for a first state, else the two halves report |
| `SyncProofs.ReevaluationAskedExactly` | cmd/quipd/src/main.rs:2851-2859 | a sync asks for a reevaluation exactly when its report differs from the empty one |
| `CandidateProofs.Ipv6Exactly` | crates/fabric/src/lib.rs:3425-3427 | an address is IPv6 exactly when a bracket opens after the scheme or there are more than two colons |
| `CandidateProofs.DirectExactly` | crates/fabric/src/lib.rs:3421-3423 | an address is direct exactly when it starts with one of two schemes |
| `CandidateProofs.KindsExactly` | crates/fabric/src/lib.rs:3409-3423 | which addresses serve which kind of path: relay takes every direct one, the direct kinds share them by family |
| `CandidateProofs.EndpointsExactly` | crates/fabric/src/lib.rs:3396-3407 | the endpoints of a route are the addresses of its kind, or all of them when none is |
| `CandidateProofs.HintedCandidate` | crates/fabric/src/lib.rs:3278-3313 | the candidate of a hinted peer: direct, without penalty, with guesses that hang on UDP reachability |
| `CandidateProofs.DirectRelay` | crates/fabric/src/lib.rs:3466-3494 | the candidate of a relay: 5 ms behind the best probe over IPv6, else 15, as fast as announced between 100 and 5000 Mbps |
| `CandidateProofs.BehindRelay` | crates/fabric/src/lib.rs:3496-3512 | the candidate of a peer behind a relay: twice the relay's way and 20 ms more, half its throughput but at least 80, penalty 25 |
| `CandidateProofs.SynthesizedExactly` | crates/fabric/src/lib.rs:3278-3362 | the candidates made up are exactly: hinted peers with a direct address once anything is reachable, announced relays, and known peers that are no relay behind each relay |
| `CandidateProofs.MergedOnFields` | crates/fabric/src/lib.rs:3266-3276 | each of them is represented in the merge by its peer, kind, relay and source, and no two added ones agree in all four |
| `PlanProofs.RoutesExactly` | crates/fabric/src/lib.rs:623-658 | there is a route exactly when a candidate serves the peer and class, the peer is known, and the relay of a relay path is announced; otherwise which error |
| `PlanProofs.RouteOnFields` | crates/fabric/src/lib.rs:623-679 | each field of a planned route: from a serving path that no other beats, the first entry of the peer, and the first announcement of the relay |
| `PlanProofs.BeforeExactly` | crates/fabric/src/lib.rs:2932-2960 | the order of the peer store is the lexicographic one |
| `PlanProofs.RelayPeersOnFields` | crates/fabric/src/lib.rs:2962-2981 | a relay map writes each announced peer with its last announcement and the time of the map |
| `PlanProofs.RefreshOnFields` | crates/fabric/src/lib.rs:2932-3003 | refreshing keeps all of a known peer but its addresses, and takes the last addresses that were written |
| `RouteStability.RefreshKeepsExactly` | crates/fabric/src/lib.rs:2932-3004 | refreshing known peers leaves the store as it is if and only if each has on record the addresses written last for it |
| `RouteStability.SyncedFields` | crates/fabric/src/lib.rs:1654-1667 | after a sync that reports no change and writes known peers only: the peers, the relay map and the candidates |
| `RouteStability.RouteKeptExactly` | crates/fabric/src/lib.rs:623-695 | after such a sync that leaves the candidates, a planned route is the same if and only if the new addresses and relay announcement yield the same endpoints and relay plan |
| `RouteStability.RoutesUnchanged` | crates/fabric/src/lib.rs:1623-1667 | with the same hints and relays, and every address list written already on record, every route to every peer is unchanged |
| `RouteStability.RelayEndpointsMoveRoutes` | crates/fabric/src/lib.rs:597-621 | an input on which a relay endpoint moves under the same peer: no change is reported and the route changes |
| `RouteStability.HintAddressesMoveRoutes` | crates/control/src/lib.rs:289-294 | the same through an address of a hint |
| `AuthorityLog.AuthorityStore.UpsertMember` | cmd/authority/src/main.rs:887-896 | in place, the member of that seed replaced or appended |
| `AuthorityLog.AuthorityStore.Materialize` | cmd/authority/src/main.rs:942-952 | in place, the stored snapshot becomes the projection of the active subject |
| `AuthorityLog.AuthorityStore.PersistIssuedArtifact` | cmd/authority/src/main.rs:745-799 | in place, the whole new authority state after one issued artifact |
| `AuthorityLog.RevokeAppends` | cmd/authority/src/main.rs:422-441 | issuing a revocation appends exactly one record with the next sequence number and keeps the log ascending |
| `AuthorityLog.BehindCursor` | cmd/authority/src/main.rs:634-648 | what a fetch after the client's maximum sequence returns is exactly the rest of the log |
| `AuthorityLog.DeliverSlice` | crates/fabric/src/lib.rs:578-595 | delivering any slice that starts within the known prefix extends the prefix to its end, however late it arrives |
| `AuthorityLog.FetchCatchesUp` | crates/fabric/src/lib.rs:1669-1680 | after a fetch the daemon's list is the log |
| `AuthorityLog.SnapshotCatchesUp` | crates/fabric/src/lib.rs:697-732 | after an accepted snapshot it is, too |
| `AuthorityLog.SyncConverges` | crates/fabric/src/lib.rs:571-595 | under any interleaving of issues, fetches, snapshots, late deliveries and local steps the list is a prefix of the log, and equals it after each sync |
| `ControlLoops.LocalControlPlane.EnsureState` | crates/fabric/src/lib.rs:1457-1470 | loading recomputes the path candidates |
| `ControlLoops.LocalControlPlane.FailAndCloseSession` | crates/fabric/src/lib.rs:1756-1780 | the session marked failed, reported, closed |
| `ControlLoops.LocalControlPlane.ReconcileSession` | crates/fabric/src/lib.rs:1835-1977 | one session's turn of the reconcile loop against its specification |
| `ControlLoops.LocalControlPlane.ReconcileListed` | crates/fabric/src/lib.rs:1835-1977 | the reconcile loop: the new transport state, the entries and the counters of the report, stopping at the first error |
| `ControlLoops.LocalControlPlane.ReconcileSessions` | crates/fabric/src/lib.rs:1821-1987 | a whole cycle over a listing of the live sessions; the recomputed state is stored exactly when it succeeds |
| `ControlLoops.LocalControlPlane.ReevaluateSession` | crates/fabric/src/lib.rs:2411-2616 | one session's turn of the reevaluation |
| `ControlLoops.LocalControlPlane.ReevaluateListener` | crates/fabric/src/lib.rs:2618-2664 | one listener's turn |
| `ControlLoops.LocalControlPlane.ReevaluateListed` | crates/fabric/src/lib.rs:2411-2616 | the session loop with its counters, stopping at the first error |
| `ControlLoops.LocalControlPlane.ReevaluateListeners` | crates/fabric/src/lib.rs:2618-2664 | the listener loop, each listener once |
| `ControlLoops.LocalControlPlane.ReevaluateRuntimeAuthority` | crates/fabric/src/lib.rs:2362-2713 | both loops in order, the report and the events around them |
| `ControlLoops.LocalControlPlane.RealizeBestPath` | crates/fabric/src/lib.rs:1989-2011 | policy, route and connect for a target; the recomputed state is stored exactly when the connect succeeds |
| `ControlLoops.LocalControlPlane.RuntimeListenersView` | crates/fabric/src/lib.rs:2254-2290 | the view loop shows each stored listener as policy would have it now |
| `ControlTraces.ReconcileIsRun` | crates/fabric/src/lib.rs:1835-1977 | a session's reconcile turn is a run of adapter operations |
| `ControlTraces.ReevaluateIsRun` | crates/fabric/src/lib.rs:2411-2616 | and so is its reevaluation |
| `ControlRuns.PlannedRoute` | crates/fabric/src/lib.rs:623-695 | planned routes have a relay plan exactly for relay paths, serve the key asked for, and have endpoints exactly when the peer has addresses |
| `ControlRuns.ReconcileCycleIsRun` | crates/fabric/src/lib.rs:1821-1987 | a whole reconcile cycle is a run of operations on well-shaped routes |
| `ControlRuns.ReevaluateCycleIsRun` | crates/fabric/src/lib.rs:2411-2616 | and so is a reevaluation |
| `ControlRuns.ControlConserves` | crates/fabric/src/lib.rs:1821-1987 | relay conservation over any interleaving of operations, whole cycles and single turns of cycles under any durable states, with relays going up and down and other users in between |
| `ControlRuns.SuppressedStaysDown` | crates/fabric/src/lib.rs:2362-2616 | while nobody clears a suppressed key without a live session, no such interleaving brings one back |
| `ReconcileProofs.ReportBalances` | crates/fabric/src/lib.rs:1821-1987 | examined = unchanged + upgraded + closed in every report |
| `ReconcileProofs.OpenedMatchesRoute` | crates/quic/src/lib.rs:777-899 | a session built from a planned route matches that route exactly when the route has a remote endpoint |
| `ReconcileProofs.InPlaceWithAddress` | crates/fabric/src/lib.rs:2819-2844 | a session in place is settled exactly when its peer has an address |
| `ReconcileProofs.ReconciledInPlace` | crates/fabric/src/lib.rs:1835-1977 | after its turn a session is gone or in place, and is reported unchanged exactly when it was settled |
| `ReconcileProofs.CycleReports` | crates/fabric/src/lib.rs:1821-1987 | the entry of each listed session, and success without relay calls when all are settled |
| `ReconcileProofs.SettledOnlyMarks` | crates/fabric/src/lib.rs:1918-1933 | the turn of a settled session marks its record and calls no relay |
| `ReconcileProofs.ReconcileFixedPoint` | crates/fabric/src/lib.rs:1821-1987 | after a successful cycle the next one leaves everything unchanged, with no upgrade or close and nothing but marks on records, if and only if each remaining session's peer has an address |
| `Counterexamples.NeverSettles` | crates/fabric/src/lib.rs:1821-1987 | an input from an empty registry on which it fails: a relay session to a peer without addresses is moved by the first cycle and not settled by the second |
| `ReevaluationProofs.CauseExactly` | crates/fabric/src/lib.rs:2426-2432 | a refusal is put down to membership when the peer is denied or when the protocol's own name contains one of the two words looked for |
| `ReevaluationProofs.ReevaluatedTurn` | crates/fabric/src/lib.rs:2411-2616 | one turn: enforced sessions are gone and suppressed, and the suppression list grows by exactly what the turn did |
| `ReevaluationProofs.TallyStep` | crates/fabric/src/lib.rs:2411-2616 | each turn adds to one column, and a policy closure to one cause |
| `ReevaluationProofs.ReevaluationEnforces` | crates/fabric/src/lib.rs:2362-2616 | after a successful pass no live session is denied, every policy-closed key is suppressed, the columns and causes sum up, closed = enforced + failed migrations, and the list grew by added - cleared + failed migrations |
| `Counterexamples.UncountedSuppression` | crates/fabric/src/lib.rs:2547-2564 | an input on which one migration fails: the list grows by one and the report counts none added |
| `ReevaluationProofs.ListenersJudged` | crates/fabric/src/lib.rs:2618-2664 | after the listener loop each listener is as policy would have it |
| `ReevaluationProofs.ViewShowsStored` | crates/fabric/src/lib.rs:2254-2290 | with the runtime identity equal to the local peer, the listener view then changes nothing |
| `ListenerProofs.LocalReasonExactly` | crates/fabric/src/lib.rs:2372-2380 | there is a local reason exactly when the membership names another peer or a denial names the local one |
| `ListenerProofs.ReevaluatedListeners` | crates/fabric/src/lib.rs:2618-2664 | after the listener loop, on fields: each listener that is not failed is suppressed, with the local reason if there is one, exactly when there is such a reason or no grant covers its protocol; a failed one is untouched; the two counts are of the listeners that were turned |
| `ListenerProofs.ViewOnFields` | crates/fabric/src/lib.rs:2254-2290 | the same of every listener that the view shows |
| `ListenerProofs.ReportOnFields` | crates/fabric/src/lib.rs:2667-2685 | what the report says about the runtime identity itself |
| `RouteFields.TurnOnFields` | crates/fabric/src/lib.rs:1835-1977 | after a reconcile turn a live session is permitted and on the path, first endpoint and relay of the route planned for it, if that has an endpoint; unchanged exactly when the listed record was |
| `RouteFields.CycleOnFields` | crates/fabric/src/lib.rs:1821-1987 | the same of every session after a whole cycle, and of every entry |
| `RouteFields.DispositionsExactly` | crates/fabric/src/lib.rs:1835-1977 | an entry says closed exactly when the session is gone, and upgraded only for one that was off its route |
| `RouteFields.CausesCounted` | crates/fabric/src/lib.rs:2411-2470 | each of the four cause counters counts the listed sessions with that cause, read off the membership, the denials and the grants |
| `RouteFields.ColumnsCounted` | crates/fabric/src/lib.rs:2411-2616 | each column of the report counts exactly the turns that belong into it |
| `RouteFields.SparedOnRoute` | crates/fabric/src/lib.rs:2504-2518 | a session that may live and is on its route keeps its record, and is restored if it was degraded |
| `RouteFields.SparedOffRoute` | crates/fabric/src/lib.rs:2519-2568 | one off its route that can migrate is moved onto it, or closed and suppressed when that fails |
| `RouteFields.SparedWithoutRoute` | crates/fabric/src/lib.rs:2569-2612 | one that cannot, or has no route, stays where it is, degraded |
| `RelayClasses.SelectionAndAdmission` | crates/relay/src/lib.rs:501-509 | for every announcement: selection and admission agree on Bulk exactly when both or neither of its two names is announced, and on another class exactly when selection recognises any name or the class is Background |
| `RelayClasses.BulkTransferAlone` | crates/fabric/src/lib.rs:3556-3571 | the announcement of BulkTransfer alone is selected for Control and Interactive, refused for both, and never selected for Bulk |
| `RelayClasses.RefusedAtRelay` | crates/relay/src/lib.rs:183-197 | a relay refuses, unchanged, every session of a class that its admission does not know |
| `Driver.FindListed` | cmd/quipd/src/main.rs:504-528 | the search for a listed session of the target that the adapter owns |
| `Driver.EnsureTargetSession` | cmd/quipd/src/main.rs:374-502 | a whole driver cycle: the gate, the dial, the record of its outcome |
| `DriverRuns.PutAttemptFinds` | crates/quic/src/lib.rs:478-530 | recording an attempt shows for its key only |
| `DriverRuns.DropAttemptFinds` | crates/quic/src/lib.rs:582-605 | clearing one removes that key and no other |
| `DriverRuns.BackoffGrows` | crates/quic/src/lib.rs:506-515 | the wait never shrinks as failures add up and never passes the maximum, and both branches agree on the first one |
| `DriverRuns.DriverWaits` | cmd/quipd/src/main.rs:114-116 | with the driver's constants the waits between five dials are 5, 10, 20 and 40 seconds |
| `DriverRuns.OthersKeepAttempts` | crates/fabric/src/lib.rs:1821-1987 | no operation or cycle other than scheduling and clearing touches a key's record |
| `DriverRuns.DialsExactly` | cmd/quipd/src/main.rs:381-449 | a cycle dials exactly when the target is known, not live, not suppressed, below the maximum of failures and past its wait |
| `DriverRuns.DialIsTargeted` | cmd/quipd/src/main.rs:392-401 | whom a cycle dials: the peer of the goal when it names one, else the first known peer, with the protocol and class of the goal |
| `DriverRuns.GateOnFields` | cmd/quipd/src/main.rs:381-449 | the gates for that target: reuse exactly when a listed session of its peer, protocol and class is live, held back by a suppression of them only |
| `DriverRuns.NoTargetExactly` | cmd/quipd/src/main.rs:392-401 | there is no target exactly when the goal names no peer and none is known |
| `DriverRuns.ProtocolIdExactly` | crates/model/src/lib.rs:141-148 | a protocol id is a text that starts with a slash and has another one |
| `DriverRuns.WaitingReport` | cmd/quipd/src/main.rs:426-449 | while it may not dial, a cycle changes nothing and reports the failures and the seconds left |
| `DriverRuns.FailedDialReport` | cmd/quipd/src/main.rs:474-500 | after a failed dial a cycle reports the record that it leaves, with the seconds to the next dial, none when that time has come |
| `DriverRuns.FailureRecorded` | cmd/quipd/src/main.rs:474-500 | a failed dial adds one failure and sets the wait from the time it failed |
| `DriverRuns.RecordsStaySound` | crates/quic/src/lib.rs:494-530 | in every reachable state a record has given up exactly at the maximum |
| `DriverRuns.DialsAreFailures` | cmd/quipd/src/main.rs:374-502 | while nothing clears the record, its count is the number of dials |
| `DriverRuns.DialBound` | cmd/quipd/src/main.rs:374-502 | between two clears of a target's record there are at most five dials, whatever else runs in between |
| `DriverRuns.NextDialWaits` | cmd/quipd/src/main.rs:426-449 | after the k-th failure the next dial comes no sooner than min(base * 2^min(k-1,16), max) later |
| `DriverRuns.CycleIsRun` | cmd/quipd/src/main.rs:374-502 | a driver cycle is a run of adapter operations on well-shaped routes |
| `WholeRuns.WholeConserves` | cmd/quipd/src/main.rs:374-502 | relay conservation, with the exact leaked set, over any run of driver cycles, control-plane cycles and turns, and operations |
| `WholeRuns.WholeRelaysConserved` | crates/quic/src/lib.rs:931-999 | with the relays reachable and from an empty registry, over every such run the open relay sessions are one to one the records held |
| `WholeRuns.WholeOneSessionPerKey` | crates/quic/src/lib.rs:931-999 | over every such run no two live sessions have the same key |
| `DriverRuns.TargetStaysDown` | cmd/quipd/src/main.rs:404-424 | driver cycles, operations and control-plane cycles in any order bring no session of a suppressed key back |
| `DriverRuns.ActiveMeansLive` | cmd/quipd/src/main.rs:465-473 | an active outcome means a live session of the target's key that policy allows, and no record left |
| `StateSchema.RewriteLegacyProtocols` | crates/fabric/src/lib.rs:1417-1445 | the recursive walk: the rewritten tree and the report |
| `StateSchema.MigrateValue` | crates/fabric/src/lib.rs:1380-1415 | the migration with its refusals |
| `StateSchema.ReplaceSelf` | crates/fabric/src/lib.rs:1419-1428 | replacing a pattern by itself is the identity |
| `StateSchema.RewriteIsIdentity` | crates/fabric/src/lib.rs:1417-1445 | so the walk changes nothing at any depth |
| `StateSchema.MigratePreserves` | crates/fabric/src/lib.rs:1380-1415 | from version 1 the document keeps every key in place and every value except the version, which becomes 2 |
| `StateSchema.MigrateTwice` | crates/fabric/src/lib.rs:1380-1415 | migrating again changes nothing and reports nothing |
| `StateSchema.UnsupportedIsFirst` | crates/fabric/src/lib.rs:1370-1376 | validation names the first top-level key that is not allowed |
| `StateSchema.VersionExactly` | crates/fabric/src/lib.rs:793-800 | a document has a version exactly when its first version field is that unsigned 64-bit number |
| `StateSchema.ValidatesExactly` | crates/fabric/src/lib.rs:1326-1378 | the answer of the validation in each case: no object, no version, no number, to migrate, unsupported, valid |
| `StateSchema.MigratesExactly` | crates/fabric/src/lib.rs:929-955 | a file migrates if and only if it is an object of version 1 or 2 with allowed top-level keys only |
| `StateSchema.MigratedFileIsSettled` | crates/fabric/src/lib.rs:929-955 | a migrated file is valid and migrates to itself with an empty report |
| `StateSchema.ReportExactly` | crates/fabric/src/lib.rs:1417-1445 | the report lists the path of each matching text exactly once in document order, and then the version |
| `Texts.NumbersDiffer` | crates/fabric/src/lib.rs:1433-1436 | the positions in a reported path are told apart: different numbers have different texts |

## Left out

- HTTP servers and clients, files, the command line, and all rendering of texts and JSON: plumbing around the model.
- Key material, signatures and credential expiry: one boolean input of an open request, and an arbitrary hash.
- Locks and asynchrony: each adapter operation and each relay call is one atomic step.
- The clock within one operation: each adapter operation reads it once; the driver has a second reading for a failed
  dial.
- Event details, event ids and timestamps as text: an event is its type, subject and time.
- Texts of relay rejections and of invalid routes: a rejected open or close is one error, and the reason stored with a
  suppression or an attempt has the outer text of the error only.
- ControlRuns.ControlConserves: within one session's turn the relays and their other users stand still; between turns
  anything may happen.
- Endpoint lists of relays: a relay is reached under one control endpoint, and endpoint texts are not normalised.
- ControlLoops.LocalControlPlane.EnsureState: the branch that makes up a state when there is no state file.
- QuicAdapter.QuicTransportAdapter.Listen: the derivation of the listener id and the summary of the binding.
- QuicAdapter.QuicTransportAdapter.ActiveSessions: the order of the listing.
- QuicAdapter.QuicTransportAdapter.ActiveListenerIds: the order of the listing.
- The order of a listing: `ActiveSessions` and `ActiveListenerIds` promise each entry once, so results hold for every
  order, of which the ordered map of the program is one.
- Routing.TotalIsSumOfParts: loss is a real number where the program has a 32-bit float, and sums are unbounded where
  the program's are 32 bits wide.
- Calendar.CivilInvertsDayNumber: intermediate 64-bit arithmetic is unbounded; day numbers near the 64-bit limits do
  not occur for times in seconds.
- Driver.EnsureTargetSession: the peer argument is given as already parsed, outcomes carry numbers instead of a status
  line, and the attempt counter is unbounded, which five attempts do not notice.
- DurableState.ReceiveRevocations: records are taken as decoded; protocol lists, record counts, queue policies, roles
  and reachability fields of the state are left out because no modelled decision reads them.
- AuthorityLog.AuthorityStore.Materialize: bootstrap hints inside the enrollment token are left out.
- AuthorityLog.AuthorityStore.PersistIssuedArtifact: bootstrap hints inside the enrollment token are left out.
- SnapshotMerge.Merge: the two address lists of a hint are compared as sets, which is what sorting and deduplicating
  amounts to.
- GrantIdentity.SameHintOnFields: white space is that of ASCII, as texts are sequences of bytes here.
- StateSchema.MigrateValue: reading and writing the file, and decoding the validated document into the typed state.
- Restarting a relay and resetting or reseeding the state: they break the invariants of a run by design.
- Hairpin detection and the other fields of the network check: no modelled step reads them.
- Health summaries, diagnosis, labels, the scheduler, discovery and the foreign interface: easy members.
