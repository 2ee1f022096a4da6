# Verified model of the Chaft local-first runtime

Chaft keeps one append-only history of signed events per workspace and runs several small protocols
over it. This project models the protocols of its Rust runtime whose correctness is spread over many
steps, processes or functions, and proves what they guarantee.

`dafny verify dfyconfig.toml` checks everything. Each file holds one module.

| module | what it models |
|---|---|
| `Events`, `Workspace`, `Materialization` | events, what each changes, and how stored rows are materialized: in store order, waiting for parents and authorization, in repeated passes |
| `StateMeaning` | what the materialized state and its authorization say about the applied events |
| `InviteClaims`, `ClaimAnswers` | any number of responder processes claiming invites over one store: read ids, read context, read ids again, decide, compare and append |
| `InviteReplay`, `ResponseReceipts` | resubmitting an accepted claim, and the stored response across processes |
| `ClaimPermanence` | which granted claims stay applied, whatever is stored later |
| `RepairedGaps`, `ClaimExamples`, `JoinerStory`, `FinalizationRuns`, `FinalizationExamples`, `RemovalExamples` | written-out histories and runs behind the findings |
| `CanonicalClaim` | the joiner's check that a pulled history contains its accepted claim |
| `ProfileIdentity`, `ProfileFinalization`, `FinalizationProcesses`, `ProfileRepeats`, `ProfileNames`, `FinalizedProfiles` | the joiner's crash-safe sequence: marker, receipt, key, profile events, finalized receipt |
| `MlsIndex` | the one-pass index over group events: members, forks, revocations, key packages |
| `CommitCatchup` | applying group commits by epoch (section 12.4 of RFC 9420) and choosing a Welcome (section 12.4.3.1) |
| `CausalHistory`, `MemberRemoval` | the ancestor worklist, and removing a member under partial failure |
| `Fingerprints`, `GapCache`, `ReconcileCheckpoint` | inventory fingerprints and the two derived caches that skip recomputation |
| `Sync`, `SyncOrder` | the two-pass direct sync, and the order in which a pull stores what it fetched |
| `KeyRing` | the rotating content-key ring |
| `BlobRetry` | the bounded transfer ledger and its retry run |
| `ArchiveNames`, `PortableExport` | export records, their paths, and the validator |

Concurrency is modelled by interleaving. `InviteClaims`, `ResponseReceipts`, `ReconcileCheckpoint`,
`ProfileFinalization` and `FinalizationProcesses` are state machines whose theorems quantify over every
run. `GapCache`, `Sync` and `MemberRemoval` are classes whose methods let other writers act between any
two accesses. Transport, disk and
MLS library outcomes are nondeterministic, or function parameters with the contract stated as a
predicate (`RaisesEpoch`, `AnnouncesTruly`, `Sound`, `Separates`). Hashes identify their input on the
inputs used.

## Findings

Some properties one would expect do not hold of the code. Each has an input, and the condition under
which the property does hold.

- A row stored before its parent has to wait: it is applied late, in a second pass, behind rows stored
  after it, so a later row can be applied before it and undo it. Later rows only ever extend what is materialized if and only if no row
  had to wait (`Materialization.ExtendsExactlyInOrder`). Otherwise even an accepted claim can vanish:
  its invite is open again and the same claim is granted twice on an invite for one
  (`ClaimExamples.RepairedGapReopensInvite`, `LimitCanBeExceeded`). An accepted claim stays applied
  whatever is stored later if and only if no row of the history it was decided on had to wait, and so do
  all claims of a run (`ClaimPermanence.AcceptedStaysExactly`, `GrantsStayExactly`); then they are also
  distinct and within the limit (`InviteClaims.OrderlyGrantsStayWithinLimits`). For the same reason one
  process can publish its profile twice (`FinalizationExamples.GapPublishesTwice`).
- A claim can be replayed until the next applied event about the device's membership, and a mere
  change of role is such an event (`InviteReplay.ReplayExactlyWhileMember`, `RoleChangeEndsReplay`).
  The same change keeps an unpublished profile unpublished
  (`ProfileFinalization.AcceptedClaimActiveExactly`, `RoleChangeBlocksFinalization`). A history of six
  events shows both (`JoinerStory.DemotionRefusesAndBlocks`).
- The lock around the stored response is held inside one process. Two overlapping processes answer one
  claim with different responses and the file keeps the second
  (`ResponseReceipts.OverlappingCallsDisagree`). A stored response never changes if and only if no call
  writes a key that another wrote between its read and its write (`StoredOnceExactly`).
- So is the finalization lock. Across processes, profile events still need the key and the right
  membership. But overlapping processes can publish the profile twice and can leave an imported key with
  neither marker nor finalized receipt (`FinalizationExamples.ProfilePublishedTwice`, `IntentIsLost`).
  `FinalizationProcesses.IntentKeptExactly` names the steps that lose the intent. A profile event is
  repeated if and only if a step publishes it while a stored one was not in force when its process
  looked (`ProfileRepeats.SecondEventExactly`, `OnceExactly`).
- The last look at the index in member removal can still refuse after every group removal succeeded:
  exactly when commits that never materialized add the device, because they are always indexed last
  (`MemberRemoval.Runtime.RemoveMemberWithOpenMls`, and a store on which it happens in
  `RemovalExamples.LateCommitBlocksRemoval`). Without a workspace key, channel keys are not rotated
  either (`RemovalExamples.ChannelKeyStaysBehind`).
- One direct sync can leave the peer without an event that is materialized locally by its end
  (`Sync.RepairedGapWaits`); the next sync publishes exactly what was held back. For the same reason a
  pull after which everything is materialized can still leave a store in which a row had to wait: a
  child stored before its parent was fetched (`SyncOrder.ReleasedChildBreaksOrder`). A store in which no
  applied row had to wait stays one by a pull if and only if nothing fetched releases a local row that
  is still waiting (`SyncOrder.PullStaysInOrder`).
- A key ring read from disk may list an old key under the current or the next id; rotation then
  shadows a key (`KeyRing.RotationCanLoseAKey`, `RotationKeepsExactly`).
- A sanitised path component can be one character longer than its stated maximum
  (`ArchiveNames.ComponentCanExceedMaximum`, `ComponentExceedsExactly`).
- The second read of the event ids in a claim is not needed for safety: the compare-and-append alone
  forces the decision and the append onto the same history (`InviteClaims.AppendOnDecidedHistory`).

## Model

| member | source | states |
|---|---|---|
| Materialization.ApplyBatch | domain/core/src/lib.rs:486-683 | the loop of passes computes the materialization, a fold of the applied events whose every component `StateMeaning.StateMeans` spells out, and reports every row left out |
| Materialization.Materialized | domain/core/src/lib.rs:486-683 | what is materialized is stored, each event was authorized with its parents applied in its turn, and no row left out could be applied |
| Materialization.FirstPassStays | domain/core/src/lib.rs:566-660 | what the first pass applies stays applied, first and in the same order, whatever is stored later |
| Materialization.ExtendsExactlyInOrder | domain/core/src/lib.rs:566-660 | later rows only ever extend what was materialized if and only if no row had to wait |
| Materialization.LateRows | runtime/src/lib.rs:1826-1857 | rows written on the heads are applied behind everything that was materialized without them |
| StateMeaning.StateMeans | domain/core/src/lib.rs:729-1000 | after any stored history, every member, invite, request, profile, link and person is what the last applied event about it said: a removed member is gone, a revoked invite is revoked, a claim count is the number of claims since the invite was created, a request names the event that approved it |
| StateMeaning.AuthorizedExactly | domain/core/src/lib.rs:1522-1690 | an event is authorized if and only if the applied events allow it, said without the state |
| StateMeaning.AppliedWasAllowed | domain/core/src/lib.rs:566-660 | every applied event was allowed by the events applied before it |
| StateMeaning.RevocationEndsClaims | domain/core/src/lib.rs:1576-1590 | on any stored history no claim of an invite is applied behind its revocation, unless the invite is created again in between |
| StateMeaning.RemovalEndsAuthority | domain/core/src/lib.rs:1522-1690 | a removed device authors nothing that is applied, unless it is let in again in between |
| StateMeaning.DemotionEndsAuthority | domain/core/src/lib.rs:1522-1690 | a device left with an ordinary role authors no administrative event that is applied, until its membership changes again |
| InviteClaims.AcceptMeetsNoClaim | runtime/src/workspace_invites.rs:510-563 | a decision to accept means that no applied claim shares the request id or the (invite, device), and no request the id |
| InviteClaims.AcceptsExactly | runtime/src/workspace_invites.rs:485-642 | for every context, a new claim is accepted if and only if the invite exists with a key, expiry is current, it is neither revoked nor accepted nor at its limit, the device is no member, the name is not empty, and no applied claim or request collides |
| InviteClaims.RefusesExactly | runtime/src/workspace_invites.rs:485-642 | which refusal an untraced claim meets, each under exactly its condition: unknown invite, no key, malformed expiry, expired, revoked, exhausted or already a member, nameless |
| InviteClaims.CollidesExactly | runtime/src/workspace_invites.rs:510-563 | a claim collides if and only if an applied claim by another claim shares its request, or its invite and device, or a request under its id is not its own, or is its own though it was never claimed |
| InviteClaims.ReplaysTruly | runtime/src/workspace_invites.rs:565-608 | a replay names the events by which this very claim was granted, and the device still holds that membership |
| InviteClaims.PreparedExactly | runtime/src/workspace_invites.rs:642-697 | a batch is ready to append if and only if the claim is accepted, the response was sealed and all three events are authorized in turn |
| ClaimAnswers.AcceptedByEventsExactly | runtime/src/workspace_invites.rs:485-642 | on any stored history, acceptance as an if-and-only-if over the applied events: created as a capability, not revoked since, claims left, device not let in, no trace of the claim, current and named |
| ClaimAnswers.RevokedIsRefused | runtime/src/workspace_invites.rs:614-618 | no claim of a revoked invite is accepted, unless the invite was created again |
| ClaimAnswers.EveryAnswerIsTrue | runtime/src/workspace_invites.rs:455-697 | in every interleaving, a granted answer names an appended triple, a replayed one a grant and membership that held on some history of the store, and a refusal a reason that held on one |
| InviteClaims.AcceptedIsApplied | runtime/src/workspace_invites.rs:642-697 | on any history, an accepted triple is applied right behind everything the decision saw |
| InviteClaims.AcceptedStays | runtime/src/workspace_invites.rs:642-697 | accepted on a history in which no row had to wait, it stays in its place in every later history |
| ClaimPermanence.AcceptedStaysExactly | runtime/src/workspace_invites.rs:642-697 | an accepted claim stays applied in every later history if and only if no row of the history it was accepted on had to wait |
| ClaimPermanence.GrantsStayExactly | runtime/src/workspace_invites.rs:465-697 | after every run, the claims granted so far stay applied however the run goes on if and only if none was decided on a history with a row that had to wait |
| InviteClaims.AppendOnDecidedHistory | runtime/src/workspace_invites.rs:465-482 | an append happens only on the very history the decision was made on, in every state the processes can reach |
| InviteClaims.StepKeeps | runtime/src/workspace_invites.rs:455-483 | every step of every process, and any append by another writer, keeps the invariant |
| InviteClaims.ClaimsStaySound | runtime/src/workspace_invites.rs:465-697 | after every run with arbitrary other appends, each granted claim is a triple linked by single parents, decided with a current expiry on exactly the history before it, meeting no claim applied there, and applied within the limit of its invite |
| InviteClaims.OrderlyGrantsStayWithinLimits | runtime/src/workspace_invites.rs:610-627 | if no grant was decided on a history with a row that had to wait, all granted claims stay applied, are pairwise distinct by request and by (invite, device), and together keep within each invite's limit |
| InviteClaims.AppliedClaimsStayWithinLimit | domain/core/src/lib.rs:1576-1590 | on any history, the claim events of an invite applied since its last creation number at most its counter, and that at most its limit |
| InviteClaims.NoHalfDoneClaim | storage/store/src/lib.rs:209-241 | a claim step changes the history by nothing or by one whole triple |
| InviteClaims.GivingUpMeansEightChanges | runtime/src/workspace_invites.rs:465-482 | giving up means eight disjoint spans in each of which the history grew |
| InviteClaims.UndisturbedClaimIsGranted | runtime/src/workspace_invites.rs:455-483 | left alone, an acceptable claim is granted in one attempt |
| ClaimExamples.SimpleClaimIsAccepted | runtime/src/workspace_invites.rs:485-697 | a claim is accepted on a history of two events, none of which had to wait |
| ClaimExamples.RepairedGapReopensInvite | domain/core/src/lib.rs:566-660 | a history on which a claim is accepted and, after one more row, accepted again instead of answered |
| ClaimExamples.LimitCanBeExceeded | runtime/src/workspace_invites.rs:465-697 | a run that grants one claim twice on an invite for one claim |
| InviteReplay.AcceptedMembership | runtime/src/workspace_invites.rs:664-697 | the triple makes the device a member by its own membership event, with the invite's role |
| InviteReplay.CurrentUntilTouched | domain/core/src/lib.rs:729-790 | a membership stays current exactly until the next applied event about it |
| InviteReplay.ReplayExactlyWhileMember | runtime/src/workspace_invites.rs:565-608 | in every later history an accepted claim is answered again with its own events if and only if no later applied event touches the membership, nobody else used its request or claimed the invite for the device, and the invite was not replaced; revocation, expiry and exhaustion play no part |
| InviteReplay.RoleChangeEndsReplay | runtime/src/workspace_invites.rs:587-591 | once a change of the new member's role is applied, a replay is refused in every later history |
| ResponseReceipts.StoredOnceExactly | runtime/src/workspace_invites.rs:907-956 | over every run of calls from several processes with crashes, a stored response never changes if and only if no call writes a key another call wrote between its read and its write |
| ResponseReceipts.RetriesAgree | runtime/src/workspace_invites.rs:907-956 | without such a write all calls of one claim get the identical stored response |
| ResponseReceipts.EveryAnswerFits | runtime/src/workspace_invites.rs:958-993 | in every run, overlapping writes included, each answer carries the claim's invite, request and device and the asked role and expiry, and no file holds a response for another invite or request |
| ResponseReceipts.OverwriteSplitsAnswers | runtime/src/local_file_io.rs:48-62 | with such a write the two calls return different responses |
| ResponseReceipts.OverlappingCallsDisagree | runtime/src/local_file_io.rs:48-62 | a run in which two processes answer one claim differently and the file keeps the second |
| ResponseReceipts.ReceiptFiles.ReceiptOrStore | runtime/src/workspace_invites.rs:907-956 | inside one process: the first stored response is returned, and nothing is stored that does not answer the claim |
| ResponseReceipts.ReceiptFiles.RetryIsIdentical | runtime/src/workspace_invites.rs:914-931 | inside one process a retry returns the identical response |
| ProfileIdentity.ForeignKeepsIdentity | domain/core/src/lib.rs:2272-2310 | no event of another device but the removal of this one changes its profile, link or person |
| ProfileIdentity.RoundsKeepIdentity | domain/core/src/lib.rs:566-660 | rows that had to wait leave the identity alone once the device's own events are applied |
| ProfileFinalization.AcceptedClaimActiveExactly | runtime/src/workspace_invites.rs:1148-1233 | in every later history the accepted claim is the joiner's active one, under the claimed name, if and only if no later applied event touches its membership, no invite answered the request before, and no later applied event repeats a part of the claim or resolves its request by hand |
| ProfileFinalization.RoleChangeBlocksFinalization | runtime/src/workspace_invites.rs:1189-1233 | once a change of role is applied, the claim is not active in any later history |
| JoinerStory.DemotionRefusesAndBlocks | runtime/src/workspace_invites.rs:587-591 | a history on which a retry is answered and the claim is active, until the owner's change of role refuses the one and ends the other |
| ProfileFinalization.ActiveClaimIsGranted | runtime/src/workspace_invites.rs:1148-1187 | the claim chosen for finalization is the canonical one behind the active membership, and carries a name |
| ProfileFinalization.ActiveExactly | runtime/src/workspace_invites.rs:1148-1233 | a claim is the one to finalize, under a name, if and only if the current membership leads back by single parents to its request, its receipt is there and not finalized, and four sole events and the materialized request confirm it field by field |
| ProfileFinalization.StepKeeps | runtime/src/workspace_invites.rs:995-1146 | every durable step, arrival, failure and crash keeps the invariant, with the device removed and invited again at will |
| ProfileFinalization.ImportedKeyIsRecoverable | runtime/src/workspace_invites.rs:767-784 | after every run with crashes anywhere, an imported key implies the marker or a finalized receipt |
| ProfileFinalization.ProfilesNeedKeyAndMembership | runtime/src/workspace_invites.rs:1038-1070 | after every run, profile events exist only with the key, decided on a history whose active membership was granted by a canonical claim |
| ProfileFinalization.StepKeepsIdentity | runtime/src/workspace_actions.rs:1065-1117 | without removal, and when a published event is applied at its own place, every step keeps the agreement of published events, phase and materialized identity |
| ProfileFinalization.OrderlyEventsSettle | runtime/src/lib.rs:1974-1983 | an event written on a history in which no row had to wait is applied at its own place |
| ProfileFinalization.FinalizationIsCrashSafe | runtime/src/workspace_invites.rs:1038-1146 | over such runs a finalized receipt implies a complete identity and each kind of profile event occurs at most once |
| ProfileNames.PendingHasMarker | runtime/src/workspace_invites.rs:995-1036 | after every run with crashes anywhere, a pending receipt has its marker and is not finalized, and an imported key has a receipt that is one or the other |
| ProfileNames.DeviceHasOneName | runtime/src/workspace_invites.rs:1042-1144 | over the runs of `FinalizationIsCrashSafe`, all profile and person events of the device carry one and the same name, whatever claims it held under whatever names |
| FinalizationProcesses.ProfilesAlwaysNeedKeyAndMembership | runtime/src/workspace_invites.rs:1038-1070 | with any number of overlapping processes, crashes, removals and new invites, profile events need the key and a membership granted by a canonical claim |
| FinalizationProcesses.IntentLostExactly | runtime/src/workspace_invites.rs:995-1036 | a step loses the intent of an imported key if and only if it writes a receipt after the marker was removed, or removes the marker of a wanted claim whose receipt is not finalized |
| FinalizationProcesses.IntentKeptExactly | runtime/src/workspace_invites.rs:995-1036 | over whole runs: the intent is always kept if and only if no step is one of these |
| ProfileRepeats.SecondEventExactly | runtime/src/workspace_invites.rs:1095-1144 | after any run of any processes, with removals and rows that had to wait, a step stores a second profile, link or person profile if and only if it publishes one while a stored one was not in force when its process looked: not stored yet, not applied, or for a person the device is not linked to |
| ProfileRepeats.OnceExactly | runtime/src/workspace_invites.rs:1095-1144 | over whole runs: each kind is stored at most once if and only if no step is of this sort |
| FinalizedProfiles.FinalizedIsPublished | runtime/src/workspace_invites.rs:1095-1146 | after any run of any processes, with removals and rows that had to wait, a finalized receipt means that the device stored a profile and a link, and that a name is stored for the person it linked itself to |
| FinalizationProcesses.SerialProcessesAreCrashSafe | runtime/src/workspace_invites.rs:995-1146 | processes whose guarded sections never overlap keep every crash-safety guarantee |
| FinalizationProcesses.OverlapDuplicatesProfile | runtime/src/workspace_invites.rs:1042-1106 | wherever a profile could be published, two processes that start together both publish it |
| FinalizationProcesses.OverlapLosesIntent | runtime/src/workspace_invites.rs:1001-1036 | marking while another process finishes leaves an imported key without marker or finalized receipt |
| FinalizationExamples.ProfilePublishedTwice | runtime/src/workspace_invites.rs:1042-1106 | a run from nothing that does the first, each event written and authorized on the heads of the history |
| FinalizationExamples.IntentIsLost | runtime/src/workspace_invites.rs:1001-1036 | a run from nothing that does the second, with events written likewise |
| FinalizationExamples.GapPublishesTwice | runtime/src/workspace_invites.rs:1095-1106 | a run of one process that publishes twice after a row that had to wait was undone, each profile on the heads of the history it finds |
| MemberRemoval.ForkedAtByMembers | runtime/src/openmls_provisioning.rs:131-149 | forks do not depend on the order of events |
| MemberRemoval.InsertedCommitKeepsNoForks | runtime/src/workspace_actions.rs:1718-1817 | inserting a commit at a free epoch forks nothing |
| MemberRemoval.GroupRemovalStep | runtime/src/openmls_actions.rs:455-521 | what one group removal changes in the index: only this device and this group, down to what the later-indexed commits say |
| MemberRemoval.Runtime.RotateManualKeys | runtime/src/content_keys.rs:788-815 | success bumps every manual key once; failure leaves only key-epoch events behind; where nothing fails it succeeds |
| MemberRemoval.Runtime.RemoveMember | runtime/src/workspace_actions.rs:1672-1716 | with other writers between any two reads, the removal is recorded only if the index built from the rows and then the materialized events had no fork and no group with the device; it is pending exactly otherwise |
| MemberRemoval.Runtime.Check | runtime/src/workspace_actions.rs:1718-1770 | the first check passes if and only if the index it read has no fork and the device is only in local groups |
| MemberRemoval.Runtime.RemoveFromGroups | runtime/src/workspace_actions.rs:1784-1804 | whoever else writes, success means a stored commit drops the device from the group of every scope; alone, the device is then in exactly the groups that the admitted, never-materialized commits name, these are unchanged, and no fork arose |
| MemberRemoval.Runtime.RevokeAccess | runtime/src/workspace_actions.rs:1718-1804 | everything before the removal itself records none and, on success, drops the device from every group the first look showed; alone and with fresh epochs it leaves an index that is clean exactly when the never-materialized commits are |
| MemberRemoval.Runtime.RemoveMemberWithOpenMls | runtime/src/workspace_actions.rs:1718-1817 | wherever the call fails and whoever else writes, a recorded removal means rotated keys, the device dropped from every group it was seen in, and an index that was clean when last looked at; alone and with fresh epochs the last look refuses exactly when never-materialized commits add the device; if nothing fails either, the removal is recorded if and only if the first check passes, there is no such commit and the caller may remove the device |
| RemovalExamples.LateCommitBlocksRemoval | runtime/src/workspace_actions.rs:1672-1716 | a store of five rows on which nothing fails, the device is dropped from its only group, and the removal is still refused |
| RemovalExamples.ChannelKeyStaysBehind | runtime/src/workspace_actions.rs:1773-1781 | a workspace without a workspace key in which the removal is recorded and a channel key stays at its epoch |
| CanonicalClaim.OrderDoesNotMatter | runtime/src/workspace_invites.rs:1235-1390 | the verdict is the same for every permutation of the history |
| CanonicalClaim.CanonicalMeansOneChain | runtime/src/workspace_invites.rs:1235-1390 | a canonical claim is exactly one capability, request, member and claim event, all by the expected responder, chained by single parents |
| CanonicalClaim.CanonicalExactly | runtime/src/workspace_invites.rs:1235-1390 | the verdict is canonical under a name if and only if such a chain exists and the request, the claim, the receipt and the materialized request agree with it in every field |
| CanonicalClaim.AcceptedClaimIsCanonical | runtime/src/workspace_invites.rs:1235-1390 | in every later history the joiner recognizes the accepted claim if and only if no invite had answered the request before and no later applied event repeats a part of the claim or resolves its request by hand |
| MlsIndex.ProvisionIndex.FromEvents | runtime/src/openmls_provisioning.rs:128-284 | the index built in one pass equals the declarative meaning of members, commits, forks, revocations and key packages, for every history |
| MlsIndex.InGroupSnoc | runtime/src/openmls_provisioning.rs:196-284 | membership after one more event: added by it, or a member before and not removed by it |
| MlsIndex.RevokedSnoc | runtime/src/openmls_provisioning.rs:150-284 | revocation after one more event: revoked by it, or revoked before and not re-invited by it |
| MlsIndex.ForkedAtSnoc | runtime/src/openmls_provisioning.rs:131-149 | a new commit forks an epoch exactly when an earlier commit of the epoch is another event |
| MlsIndex.LastCommitDecides | runtime/src/openmls_provisioning.rs:131-149 | remembering only the last commit of an epoch suffices to detect every fork |
| MlsIndex.ProvisionIndex.GroupsOf | runtime/src/openmls_provisioning.rs:304-312 | exactly the groups of the scope that hold the device |
| MlsIndex.ProvisionIndex.LatestUnused | runtime/src/openmls_provisioning.rs:416-427 | the answer is a published, unused key package of the device, and no later published one is unused |
| MlsIndex.ProvisionIndex.MarkAdded | runtime/src/openmls_provisioning.rs:428-455 | marking adds the device to the group and the package to the used ones, and changes nothing else |
| MlsIndex.ProvisionIndex.Provision | runtime/src/lib.rs:1045-1070 | a round never hands out a package twice, hands out only newest unused accepted ones, and passes over no eligible device (not local, not revoked, not in the group) but for want of such a package; when no package is published by two devices it hands out exactly what was on offer at its start |
| CommitCatchup.GroupFile.ApplyCommits | runtime/src/openmls_actions.rs:674-771 | the loop and its file writes perform exactly the specified pass, including its error returns |
| CommitCatchup.NothingIsLeft | runtime/src/openmls_actions.rs:702-739 | after a pass without a selected event that did not remove the device, no commit of the group in the history, of whatever kind, is above the final epoch |
| CommitCatchup.AppliesExactly | runtime/src/openmls_actions.rs:702-739 | on an unforked history such a pass applies exactly the commits of the group above the starting epoch |
| CommitCatchup.SelectedIsApplied | runtime/src/openmls_actions.rs:702-739 | with a selected event that is a commit of the group above the epoch and accepted by the library, exactly this event is applied |
| CommitCatchup.StopsExactly | runtime/src/openmls_actions.rs:702-756 | a pass fails if and only if it meets a commit that the library rejects |
| CommitCatchup.PassAppliesConsecutive | runtime/src/openmls_actions.rs:702-739 | a pass applies a subsequence of history in one group with consecutive rising epochs |
| CommitCatchup.SelfRemovalIsLast | runtime/src/openmls_actions.rs:1230-1285 | the applied commits form a chain of states in which every commit but the last left the device in, so nothing is applied after self-removal |
| CommitCatchup.SecondPassIsIdle | runtime/src/openmls_actions.rs:702-756 | a second pass over the same history applies nothing, and by `NothingIsLeft` there is nothing it should have applied |
| CommitCatchup.DevicesConverge | runtime/src/openmls_actions.rs:702-739 | two devices with histories of their own that together do not fork the group apply the same events in the same order on the epochs both cover, whatever epochs they started from |
| CommitCatchup.SameCommitsForkNothing | runtime/src/openmls_actions.rs:702-739 | which is so when both hold the same commits of the group, in any order, and one of them is unforked |
| CommitCatchup.JoinedGroupIsCurrent | runtime/src/openmls_actions.rs:523-575 | the Welcome chosen is the newest one for the device and newer than its last removal, and the index counts the device into that group; if none is chosen every Welcome was outlived by a removal |
| CausalHistory.CollectAncestors | runtime/src/workspace_actions.rs:471-493 | the worklist terminates on any parents, reports complete exactly when every reachable ancestor is present, and then holds exactly the ancestors |
| CausalHistory.Admits | runtime/src/workspace_actions.rs:457-505 | a candidate is admitted exactly when `Admitted` holds of it, read off the worklist |
| CausalHistory.AdmittedExactly | runtime/src/workspace_actions.rs:457-505 | that is, if and only if it is a group commit that is not materialized, no path of parents from it leaves the store, and the rows on these paths, materialized on their own, make its author a member |
| CausalHistory.NeutralIsAllThatIsApplied | runtime/src/openmls_actions.rs:455-521 | a group commit or key epoch written on the heads is all that is added to the materialized history |
| CausalHistory.ExtraStays | runtime/src/workspace_actions.rs:457-507 | and leaves the admitted, never-materialized commits exactly as they were |
| CausalHistory.RemovalHistory | runtime/src/workspace_actions.rs:439-507 | the indexed history is the materialized events followed by the admitted candidates |
| Fingerprints.EncodeInjective | runtime/src/sync_runtime.rs:1833-1840 | the length-prefixed stream identifies the sequence of ids, however they are cut |
| Fingerprints.SequenceFingerprintIdentifies | runtime/src/sync_runtime.rs:1833-1840 | the unsorted fingerprint identifies exactly the sequence |
| Fingerprints.InventoryFingerprintIdentifies | runtime/src/materialization_health.rs:205-214 | the sorted fingerprint identifies exactly the multiset of ids |
| GapCache.UnchangedInventory | runtime/src/materialization_health.rs:66-84 | equal inventories at both ends mean an unchanged history in between |
| GapCache.Evict | runtime/src/materialization_health.rs:144-163 | eviction terminates with the longest suffix of entries within both limits, and gives up exactly when not even the newest entry fits |
| GapCache.Cache.Cached | runtime/src/materialization_health.rs:96-116 | a hit is what a full scan of the history with that inventory returns |
| GapCache.Cache.Record | runtime/src/materialization_health.rs:118-170 | the file is unchanged exactly when the entry is over a limit or the disk refuses; otherwise it is the longest fitting suffix ending in the new entry; every entry stays a true scan |
| GapCache.Cache.LookUp | runtime/src/materialization_health.rs:57-64 | a hit is used only for the inventory that still holds afterwards |
| GapCache.Cache.ScanUntilStable | runtime/src/materialization_health.rs:66-84 | the result is a complete scan at one moment of the call, and only a scan of an unchanged inventory is stored |
| GapCache.Cache.CurrentGaps | runtime/src/materialization_health.rs:53-84 | with other writers acting at any time, the reported gaps are a full scan of some history between the start and the end of the call |
| ReconcileCheckpoint.ExpectedEndMeans | runtime/src/sync_runtime.rs:1858-1884 | the predicate holds exactly when the end is the start followed by a permutation of the generated ids, all distinct |
| ReconcileCheckpoint.Recorded | runtime/src/sync_runtime.rs:1551-1575 | the ledger stays within 256 entries, ends with the new one, holds one per workspace and device, and invents none |
| ReconcileCheckpoint.RecordedKeepsNewest | runtime/src/sync_runtime.rs:1551-1575 | of the other entries exactly the newest that fit stay, in order |
| ReconcileCheckpoint.CheckpointsExactly | runtime/src/sync_runtime.rs:1294-1333 | a finished pass is recorded if and only if the secrets are equal at both ends and the end is the start followed by the reported events |
| ReconcileCheckpoint.UndisturbedPassIsRecorded | runtime/src/sync_runtime.rs:1294-1333 | an error-free pass that nobody disturbs is recorded, and leaves exactly the ledger with the new entry |
| ReconcileCheckpoint.NextCallIsSkipped | runtime/src/sync_runtime.rs:1294-1333 | and the device's next undisturbed call with the same events and secrets is skipped |
| ReconcileCheckpoint.StepKeeps | runtime/src/sync_runtime.rs:1294-1333 | every step of every process, each read and write of ids, secrets and ledger on its own, keeps the invariant, and histories only grow |
| ReconcileCheckpoint.SkipIsJustified | runtime/src/sync_runtime.rs:1294-1333 | in every interleaving a skip means that an error-free pass of this device ended in exactly the ids and secrets read, with unchanged secrets and only its own reported events added; if recorded before this call began, nothing was appended since |
| Sync.FollowUpCovers | runtime/src/sync_results.rs:108-115 | generated events always ask for a follow-up, as long as unlisted ones mean a rotation |
| Sync.ConvergesExactly | runtime/src/sync_runtime.rs:978-1057 | both sides agree afterwards exactly when every event the peer lacked was materialized and every generated one was announced and materializes |
| Sync.OneSyncConverges | runtime/src/sync_runtime.rs:978-1057 | without gaps one sync leaves both sides with the same events |
| Sync.SecondSyncCloses | runtime/src/sync_runtime.rs:1070-1088 | once the pull closed the gaps, the next sync publishes exactly what was held back and both sides agree |
| Sync.PublishesAreDisjoint | runtime/src/sync_runtime.rs:1070-1088 | the two publishes are disjoint and the second has nothing from the initial local inventory |
| Sync.ApplyingIsSound | runtime/src/sync_runtime.rs:283-328 | materialization of stored rows is one the sync may rely on |
| Sync.RepairedGapWaits | runtime/src/sync_runtime.rs:1070-1088 | two stored events on which one sync leaves out the one that is materialized by its end |
| Sync.ArrangedPermutes | network/sync/src/lib.rs:325-388 | fetched events are appended each exactly once |
| SyncOrder.ArrangedOrder | network/sync/src/lib.rs:343-375 | fetched events that the extended history materializes are appended first and in its order, the others behind them in the order they came |
| SyncOrder.PullStaysInOrder | network/sync/src/lib.rs:343-375 | if no applied local row had to wait, then after the pull none has and all that the extended history materializes is, if and only if the fetched events release no local row that was still waiting |
| SyncOrder.PullWithoutGapsStaysInOrder | network/sync/src/lib.rs:343-375 | in particular when every local event is materialized, whatever is fetched and in whatever order |
| SyncOrder.ReleasedChildBreaksOrder | network/sync/src/lib.rs:343-375 | a store of one waiting child into which its parent is pulled: everything is materialized then, and a row had to wait |
| Sync.Replica.Publish | runtime/src/sync_runtime.rs:283-328 | only materialized events among the wanted ones are sent, in order, each once |
| Sync.Replica.Pull | network/sync/src/lib.rs:180-250 | a correct answer is appended, arranged as `SyncOrder.ArrangedOrder` says; a wrong one leaves the store alone |
| Sync.SyncDirect | runtime/src/sync_runtime.rs:978-1057 | with other writers, any peer and failure anywhere, the peer receives only local events and the publishes stay disjoint; alone with an accepting peer the call is exactly the specified sync |
| KeyRing.KeyIdsDiffer | runtime/src/content_keys.rs:397-399 | key ids of one ring differ exactly when their epochs do |
| KeyRing.RingsDiffer | runtime/src/content_keys.rs:397-399 | within one workspace no two rings, of the workspace or of any channels, ever use the same key id |
| KeyRing.EveryKeyStaysResolvable | runtime/src/content_keys.rs:385-399 | after any rotations every id ever current resolves to its key, no other id resolves, ids are distinct and the epoch counts the rotations |
| KeyRing.RotationKeepsExactly | runtime/src/content_keys.rs:477-502 | for any loaded ring, rotation keeps every key under its id exactly when no old key shadows the current or next id |
| KeyRing.RotationCanLoseAKey | runtime/src/content_keys.rs:416-488 | a readable record on which rotation loses a key |
| KeyRing.HeldRingsRotateSafely | runtime/src/content_keys.rs:477-488 | rings that grew by rotation always meet that condition |
| KeyRing.RingRoundTrip | runtime/src/content_keys.rs:416-444 | storing and loading gives back the same ring exactly for consistent rings |
| KeyRing.RecordRoundTrip | runtime/src/content_keys.rs:446-475 | a record is accepted exactly when readable, and written back with every key unchanged |
| KeyRing.ReloadedRingKeepsRotating | runtime/src/content_keys.rs:416-524 | rotating, storing and loading in any order loses nothing |
| KeyRing.ContentKeys.Rotate | runtime/src/content_keys.rs:477-488 | the object's new state is the rotated ring |
| KeyRing.ContentKeys.ResolveKey | runtime/src/content_keys.rs:490-502 | the lookup loop is the specified resolution |
| BlobRetry.RetryRank | runtime/src/blob_transfer_planning.rs:70-89 | 0 when some transfer succeeded, 2 when some were tried and none did, 1 otherwise |
| BlobRetry.PlannedRetryPeers | runtime/src/blob_transfer_planning.rs:48-68 | the plan lists the first peer of every endpoint once, best rank first and otherwise in the given order |
| BlobRetry.PlannedEndpointsDiffer | runtime/src/blob_transfer_planning.rs:48-68 | no endpoint is planned twice |
| BlobRetry.PlannedChunkUpload | runtime/src/blob_transfer_planning.rs:8-46 | the chunks to send and those the peer has partition the blob's chunks, each listed once |
| BlobRetry.FinishedStays | runtime/src/blob_transfer_runtime.rs:110-138 | the cap never drops the attempt just finished |
| BlobRetry.ReplacedAt | runtime/src/blob_transfer_runtime.rs:122-134 | the first attempt with the id is replaced in its place and every other one stays in its own; without one the finished attempt comes last |
| BlobRetry.TriesCount | runtime/src/blob_transfer_runtime.rs:64-73 | the count is the number of entries of that workspace, peer and hash |
| BlobRetry.Ledger.RecordStarted | runtime/src/blob_transfer_runtime.rs:52-108 | the attempt is appended in progress, counting one more than the entries of its workspace, peer and hash, and the ledger keeps its newest 512 entries |
| BlobRetry.Ledger.RecordFinished | runtime/src/blob_transfer_runtime.rs:110-139 | the first attempt with that id is replaced in its place and nothing else changes; if there is none the attempt is appended and the newest 512 entries stay |
| BlobRetry.Ledger.Upload | runtime/src/blob_transfer_runtime.rs:50-139 | an upload under an id of its own leaves exactly one more entry, its final status and count, and drops at most the oldest |
| BlobRetry.Ledger.ReconcileSatisfied | runtime/src/blob_transfer_runtime.rs:171-196 | exactly the unfinished attempts of the blob become succeeded, and it reports some exactly when there were some |
| BlobRetry.Ledger.RetryBlob | runtime/src/sync_runtime.rs:513-588 | the plan is visited in order until a peer has the blob: it is reported as retried exactly when the last upload succeeded and as held exactly when the last peer visited has it, and is then settled; otherwise the whole plan was visited; settled blobs stay settled |
| BlobRetry.Ledger.RetryPending | runtime/src/sync_runtime.rs:443-596 | every pending blob is accounted for exactly once: skipped when no materialized event refers to it, missing when it is not stored, otherwise its plan is followed; retried hashes are exactly those whose last upload succeeded, every retried or reconciled one is settled at the end, lists repeat nothing, the ledger stays within 512 |
| ArchiveNames.ComponentIsSafe | runtime/src/portable_export.rs:2283-2306 | a component is never empty, holds only safe characters and neither starts nor ends with a separator |
| ArchiveNames.AllowedNameIsKept | runtime/src/portable_export.rs:2283-2306 | a name of allowed characters within the limit is kept, in lower case |
| ArchiveNames.ComponentCanExceedMaximum | runtime/src/portable_export.rs:2283-2306 | a component can be one longer than its maximum |
| ArchiveNames.ComponentExceedsExactly | runtime/src/portable_export.rs:2283-2306 | a component exceeds its maximum if and only if the collected text ends one place before it, dropped characters and then a letter or digit follow, and the text starts with a letter or digit |
| ArchiveNames.BuildComponent | runtime/src/portable_export.rs:2283-2306 | the loop computes the specified component |
| ArchiveNames.InputIdentifies | runtime/src/portable_export.rs:2245-2257 | the bytes hashed for an attachment identify channel, message and position |
| ArchiveNames.PathsAgree | runtime/src/portable_export.rs:2259-2273 | equal archive paths mean equal digests, whatever sanitising did to the names |
| ArchiveNames.ChannelPathsAgree | runtime/src/portable_export.rs:2275-2281 | equal channel pages mean equal digests of the channel ids |
| PortableExport.Validate | runtime/src/portable_export.rs:1269-1380 | the validator accepts exactly the well-formed records |
| PortableExport.ProjectChannels | runtime/src/portable_export.rs:880-905 | one record for every readable channel |
| PortableExport.ProjectMessages | runtime/src/portable_export.rs:946-1066 | one record for every exported message and every attachment of one, however the map is traversed |
| PortableExport.SortingKeepsProjection | runtime/src/portable_export.rs:1067-1085 | sorting the records in any way keeps them a projection |
| PortableExport.LoadAttachments | runtime/src/portable_export.rs:514-548 | each record becomes what its load says, and exactly those that could not be loaded are listed as missing |
| PortableExport.ProjectionIsWellFormed | runtime/src/portable_export.rs:946-1091 | projected and loaded records are always well formed: ids and paths distinct, references equal to the records, path and digest present exactly when included |
| PortableExport.Export | runtime/src/portable_export.rs:508-554 | the validator never rejects an export, and the records list every exportable message and attachment, every readable channel and every member, and no other |

## Left out

- Materialization.Materialized: channels created twice under one id, which the code keeps waiting, are not modelled, and neither are payload errors that abort materialization; the heap of ready rows is modelled by the passes it reproduces.
- Finer authorization of channels, messages and avatars, and field-length limits other than the claim's display name: single-branch facts.
- Whitespace trimming of names, and byte lengths of UTF-8 strings: strings are sequences of characters.
- In-place repair of stored rows whose signature does not verify: the store only appends.
- InviteClaims.OrderlyGrantsStayWithinLimits: the condition is exact for claims to stay applied (`ClaimPermanence.GrantsStayExactly`) and sufficient for the limit; after an event that creates the invite again the count starts anew, as in the code.
- InviteReplay.ReplayExactlyWhileMember: for claims accepted on a history in which no row had to wait; `ClaimExamples.RepairedGapReopensInvite` shows what happens otherwise.
- CanonicalClaim.AcceptedClaimIsCanonical: when an invite answered the request first, the resolving event is left unset, where the code picks one of them.
- StateMeaning.StateMeans: a request that an invite answered before it was recorded names no approving event, as just said.
- ProfileFinalization.FinalizationIsCrashSafe: profile edits by the user are excluded, and so is removal of the device, which clears the link, so a later claim publishes a second one. Without either condition, `ProfileRepeats.OnceExactly` says exactly when an event is stored once and `FinalizedProfiles.FinalizedIsPublished` that none is missing; whether the stored events are still in force is stated under the conditions only. Legacy receipts and markers are not modelled.
- ProfileFinalization.StepKeepsIdentity: for runs without removal in which a published event is applied at its own place, as above.
- ProfileFinalization.StepKeeps: publishing an event is not conditioned on its parents or the authorization check, so the model allows at least what the code does; the written-out runs obey both.
- MemberRemoval.Runtime.RemoveMemberWithOpenMls: the channel twin of this call and its reconciliation of provisioning outcomes are not modelled; what other writers do to the index meanwhile is only bounded by the last look.
- GapCache.Cache.CurrentGaps: parseable events that are not servable are ignored, and a cache file with foreign content is only treated as empty.
- ReconcileCheckpoint.SkipIsJustified: what a reconciliation pass does is any series of appends and secret changes that reports only events it appended.
- Sync.SyncDirect: blob scans and their 60-second schedule, authorization proofs sent along, and non-canonical ids in a peer's listing.
- KeyRing.EveryKeyStaysResolvable: epochs are unbounded, so overflow of the 64-bit counter is not modelled.
- BlobRetry.Ledger.RetryPending: one process at a time; peer error texts, byte counts, truncation of long fields on reading and failing ledger writes are not modelled.
- PortableExport.Export: record fields that no invariant mentions (bodies, reactions, names, roles, times), the sort keys, ZIP, HTML and JSON writing.
- Hashing is ideal on the inputs used; signatures, key agreement, AES-GCM-SIV and the MLS library itself are foreign calls.
- Search, snapshots, listings, storage diagnostics, trust snapshots, compromise response, recovery bundles, file publication and the user interfaces: thin wrappers or tooling that would add only easy members.
