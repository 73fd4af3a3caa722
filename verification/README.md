# W1 Nexus: verified model of the shared core

This project models, in Dafny, five parts of W1 Nexus whose promises span many calls, and proves those promises for every run of calls, refused and crashed ones included.

- **Collaboration fabric.** Teams, invitations, projects, shares, tokens and devices, and the synchronization of project state between devices. The tables are derived views of two append-only logs, and the proofs say that they agree with those logs in every reachable state, that no accepted update is lost, that devices keep an unbroken hash chain, that nothing is done without the right to it, that retries are harmless, and that a client which pulls pages ends up with the server's state.
- **Governed action runtime.** A journal with one-time approvals, at-most-once dispatch, backups and undo over a file tree. The proofs say what an undo restores, exactly when it reports success and when that success means a restoration, and when undoing is a true inverse.
- **Artifact Studio.** Versioned drafts saved by compare-and-swap, independent review, and publication over an unchanged base through the runtime.
- **Capacity router.** A greedy choice of models for the roles of a team under one running budget, with the exact weight of quality, source, price, quota, terms and provider in every routing mode.
- **Conversation context.** Token-bounded packing of a summary, a memory bundle and recent messages.

## How it is built

Every operation appears twice: as a method that updates tables (class fields) step by step in the order of the program, and as a function from tables to tables and an answer. The method's contract is equality with the function; what each call does and when it is granted is then proved about the functions in terms of the tables before and after, and so are the theorems about runs. A run is any sequence of calls, each with its own clock reading and fresh identifiers as inputs; a colliding identifier is a refused call.

| files | contents |
|---|---|
| `Prelude`, `HashChain` | options, results and texts; append-only logs linked by digests |
| `SyncMutation`, `CollaborationTables`, `CollaborationCalls`, `CollaborationStore` | mutations and their normalisation, the tables, one function per call, the store class |
| `CollaborationRights`, `CollaborationAuthority`, `CollaborationPushes`, `CollaborationEntitlement` | who may do what; when each call is granted and what it then changes, in the tables' own terms; and that nothing is done without the right to it |
| `CollaborationMembership`, `CollaborationAudit`, `CollaborationReplay`, `CollaborationSync`, `CollaborationHistory`, `CollaborationPull`, `CollaborationExamples` | the theorems over runs of the fabric, and a run in which a retry is refused |
| `FileTree`, `FileActions`, `UndoGuarantees`, `UndoChains`, `ActionEffects` | workspace trees, the file actions and their backups, what undo guarantees, and what each action does path by path |
| `ActionJournal`, `ActionRuntime`, `JournalGuarantees`, `JournalUndo`, `UndoExamples` | the journal as functions, the runtime class, the theorems over runs, undoing whole runs, and runs in which undo falls short |
| `ArtifactStudio`, `ArtifactStudioStore`, `StudioEdits`, `StudioHistory`, `StudioGuarantees`, `StudioExamples` | the studio as functions, its class, what each call does, where versions come from, its theorems over runs, and a run with an unwritten publication |
| `CapacityRouter`, `RoutingGuarantees`, `RoutingPreferences` | planning as loops and functions, its theorems, and what it prefers |
| `ConversationContext`, `ConversationStore`, `ContextHistory`, `ContextGuarantees` | the tables and the packing, the store class, what is kept and used, its theorems |

SHA-256 over canonical JSON and HMAC signatures are symbolic values that are equal exactly when what they cover is equal. Each database transaction is one atomic step, so a call is one step, except that resolving a conflict is two transactions and an action may be cut off between its journal row and its result.

## Where the program does less than it says

Each of these is stated with its exact condition and an input at which it happens; the model keeps the program's behaviour.

- A repeated push without a timestamp is stamped again at each attempt; the repeated push is then refused as a reused mutation id unless the clock still shows the same second (`CollaborationHistory.RedeliveryIsAcknowledged`, `CollaborationExamples.HonestRetryCanBeRefused`).
- Undo does not remove directories that an action created as missing parents (`UndoChains.UndoIsInverseIff`, `UndoExamples.DirectoryStaysBehind`), and it stops when a regular file has taken the place of a directory above a path to put back (`JournalGuarantees.UndoAfterAnything`, `UndoExamples.UndoCanBeObstructed`).
- Undo does not check whose result is stored under the id it is given: under an id that already has a result, another action's or an earlier undo's, it answers with that result, reports a success where that was one, and restores nothing (`JournalGuarantees.UndoAfterAnything`, `JournalGuarantees.UndoReplays`, `UndoExamples.UndoUnderAnotherIdRestoresNothing`).
- An approval presented for an action that needs none is not validated but is consumed all the same, so an approval can be used up by an action it was not issued for (`JournalGuarantees.SpentByAnotherIff`, `JournalGuarantees.ReadingCanSpendAnApproval`).
- `execute` returns a stored failed result without raising, so a publication can be recorded whose file was never written (`StudioGuarantees.PublishedBytesIff`, `StudioGuarantees.FailedWriteThenRecorded`, `StudioExamples.UnwrittenPublicationIsReachable`).
- A context can exceed its token budget by up to 64 tokens when memory is used after a long summary (`ContextGuarantees.ContextIsBounded`, `ContextGuarantees.BudgetCanBeExceeded`).
- Only the oldest 1000 messages of a conversation are considered, so in longer conversations the newest turns are not replayed and not counted as omitted (`ContextGuarantees.NewestWinsIff`, `ContextGuarantees.OmittedCountsTheSkipped`, `ContextGuarantees.NewestCanBeLost`).

## Model

| member | source | states |
|---|---|---|
| SyncMutations.NormalizedIsCanonical | src/w1cip/collaboration.py:229-254 | A mutation normalises exactly when it is acceptable (identifiers of 1 to 200 characters once stripped, a known operation, a safe key, a sequence of at least 1, a base revision of at least 0, a bounded value) and its hash is missing or that of its own payload; the payload then says what the mutation says, the value of a set unchanged and that of a delete null, with a stripped key and the clock for a missing timestamp |
| SyncMutations.NormalizedIsStableIffStamped | src/w1cip/collaboration.py:244-254 | Normalising twice at different clock readings gives the same answer exactly when the mutation carries a timestamp or is refused both times |
| SyncMutations.WireRoundTrip | src/w1cip/collaboration.py:256-269 | Sending a mutation over the wire and normalising what arrives, at any later clock reading, gives exactly what the sender normalised |
| SyncMutations.MissingFields | src/w1cip/collaboration.py:261-269 | On the wire a missing base revision counts as 0 and a missing value as null; without ids, sequence, key or operation nothing normalises |
| SyncMutations.OperationParsesIff | src/w1cip/collaboration.py:229-232 | A text is read as an operation exactly when it spells its name, in whatever mix of cases |
| Prelude.StripCuts | src/w1cip/collaboration.py:233-238 | Stripping cuts nothing but space off both ends, and all of it |
| Prelude.SplitJoins | src/w1cip/collaboration.py:237-239 | Splitting a key into components is the inverse of joining them, and leaves no separator inside a component |
| CollaborationStores.CollaborationStore.AppendAudit | src/w1cip/collaboration.py:420-437 | Appends one audit row that names the newest row of the same team and carries the digest of its own content |
| CollaborationStores.CollaborationStore.CreateTeam | src/w1cip/collaboration.py:439-452 | The tables and the answer are those of `CollaborationCalls.CreateTeam` on the old tables: the team, its first owner and the audit row, or nothing and an error, as when the audit event id is taken |
| CollaborationStores.CollaborationStore.SetMemberRole | src/w1cip/collaboration.py:486-503 | The tables and the answer are those of `CollaborationCalls.SetMemberRole`: who may change which role, and never the last owner |
| CollaborationStores.CollaborationStore.RemoveMember | src/w1cip/collaboration.py:505-543 | The tables and the answer are those of `CollaborationCalls.RemoveMember`: who may remove whom, and never the last owner |
| CollaborationStores.CollaborationStore.Expel | src/w1cip/collaboration.py:524-542 | One transaction revokes the member's live tokens, deletes the member's devices and shares in the team and the membership, and audits how many there were |
| CollaborationStores.CollaborationStore.CreateInvitation | src/w1cip/collaboration.py:545-561 | The tables and the answer are those of `CollaborationCalls.CreateInvitation`, with its limits on roles and expiry |
| CollaborationStores.CollaborationStore.AcceptInvitation | src/w1cip/collaboration.py:563-576 | The tables and the answer are those of `CollaborationCalls.AcceptInvitation`: unknown, spent, revoked or expired invitations and existing members are refused |
| CollaborationStores.CollaborationStore.RevokeInvitation | src/w1cip/collaboration.py:578-589 | The tables and the answer are those of `CollaborationCalls.RevokeInvitation` |
| CollaborationStores.CollaborationStore.CreateProject | src/w1cip/collaboration.py:597-608 | The tables and the answer are those of `CollaborationCalls.CreateProject`: the project and its creator's manager share, or nothing |
| CollaborationStores.CollaborationStore.GrantProjectAccess | src/w1cip/collaboration.py:643-656 | The tables and the answer are those of `CollaborationCalls.GrantProjectAccess`; an existing share, the creator's included, is overwritten |
| CollaborationStores.CollaborationStore.RevokeProjectAccess | src/w1cip/collaboration.py:658-665 | The tables and the answer are those of `CollaborationCalls.RevokeProjectAccess`; the creator's share is never revoked |
| CollaborationStores.CollaborationStore.IssueAccessToken | src/w1cip/collaboration.py:667-678 | The tables and the answer are those of `CollaborationCalls.IssueAccessToken` |
| CollaborationStores.CollaborationStore.AuthenticateAccessToken | src/w1cip/collaboration.py:680-688 | A secret authenticates exactly when it stands for a token on record that is neither revoked nor expired, and it answers with that token |
| CollaborationStores.CollaborationStore.RevokeAccessToken | src/w1cip/collaboration.py:690-700 | The tables and the answer are those of `CollaborationCalls.RevokeAccessToken` |
| CollaborationStores.CollaborationStore.RegisterReplica | src/w1cip/collaboration.py:702-712 | The tables and the answer are those of `CollaborationCalls.RegisterReplica`: a new device starts at sequence 0 with no head |
| CollaborationStores.CollaborationStore.ApplyMutation | src/w1cip/collaboration.py:731-782 | The tables and the answer are those of `CollaborationCalls.ApplyMutation`: replay, sequence, chain and revision checks in the order of the code, then a conflict or an accepted event |
| CollaborationStores.CollaborationStore.RecordConflict | src/w1cip/collaboration.py:750-767 | A stale push adds one open conflict row and its audit row, and answers with the conflict |
| CollaborationStores.CollaborationStore.RecordEvent | src/w1cip/collaboration.py:768-782 | An accepted push writes event, state row, device head and audit row in one transaction, or none of them |
| CollaborationStores.CollaborationStore.ResolveConflict | src/w1cip/collaboration.py:813-827 | The tables and the answer are those of `CollaborationCalls.ResolveConflict`: the pushed resolution stays even if the closing transaction fails |
| CollaborationStores.CollaborationStore.CloseConflict | src/w1cip/collaboration.py:823-826 | Marks the conflict resolved with the hash of the resolving event and audits it, or changes nothing |
| CollaborationStores.CollaborationStore.VerifyAudit | src/w1cip/collaboration.py:838-851 | Reports a team valid exactly when its rows are linked, with its newest digest; otherwise names the first row that does not fit |
| CollaborationStores.CollaborationStore.PullEvents | src/w1cip/collaboration.py:784-801 | A pull succeeds exactly for who may read the project, with a cursor of at least 0 and a limit of 1 to 5000; a page is the first `limit` events of the project past the cursor, in ordinal order, and the new cursor is the last of them |
| CollaborationStores.CollaborationStore.GetState | src/w1cip/collaboration.py:720-729 | Answers exactly who may read the project with every key's revision and the values of the keys that are not deleted, and otherwise says whether the project exists |
| CollaborationStores.SnapshotIsPointwise | src/w1cip/collaboration.py:720-729 | The state answered is the only one that, key by key, holds the revision of each state row of the project and no other, and a value exactly for the rows without a tombstone |
| CollaborationRights.AccessIff | src/w1cip/collaboration.py:627-641 | The access check admits exactly the members of the project's team who run it or have a share of a sufficient level, view for reading, edit for editing, manage for managing; it denies all others and reports a missing project |
| CollaborationRights.TeamRoleIff | src/w1cip/collaboration.py:480-484 | The role check admits exactly the members with at least that role |
| CollaborationRights.LastOwnerIff | src/w1cip/collaboration.py:496-499 | Counting owners finds an owner to be the last exactly when no other member is one |
| CollaborationAuthority.CreateTeamIff | src/w1cip/collaboration.py:439-452 | A team is created exactly with a name, an owner and an unused id; its owner is then its one member added |
| CollaborationAuthority.RoleChangeIff | src/w1cip/collaboration.py:486-503 | A role is changed exactly by who runs the team, for a member, to a known role, touching ownership only as an owner and never taking it from the last one; exactly that member's role changes, and the audit row says from what to what |
| CollaborationAuthority.RemovalIff | src/w1cip/collaboration.py:505-543 | A member is removed exactly by who runs the team, an owner only by an owner and never the last one; exactly the member's live tokens, devices, shares and membership in that team go, in the numbers reported |
| CollaborationAuthority.InvitationIff | src/w1cip/collaboration.py:545-561 | An invitation is made exactly by who runs the team, below the owner role, for 1 to 720 hours; its secret opens it exactly until then |
| CollaborationAuthority.AcceptanceIff | src/w1cip/collaboration.py:563-576 | A secret is accepted exactly when it opens an invitation of a team the caller is not in; the caller joins in its role and it is spent |
| CollaborationAuthority.InvitationAdmits | src/w1cip/collaboration.py:545-576 | A freshly made invitation admits a guest exactly before it expires and if not yet a member, in the role it was made out for, and then nobody else |
| CollaborationAuthority.InvitationRevokedIff | src/w1cip/collaboration.py:578-589 | An invitation is revoked exactly by who runs the team and before it is accepted; no secret opens it then |
| CollaborationAuthority.ProjectIff | src/w1cip/collaboration.py:597-608 | A project is created exactly by a member above viewer, under an unused id; the creator may then manage it |
| CollaborationAuthority.ShareIff | src/w1cip/collaboration.py:643-656 | A share is set exactly by who may manage the project, for a member of its team, at a known level; the member may then read, and may edit or manage exactly as the level or the member's role says |
| CollaborationAuthority.UnshareIff | src/w1cip/collaboration.py:658-665 | A share is revoked exactly by who may manage the project and never from its creator; who does not run the team may then neither read nor edit it |
| CollaborationAuthority.TokenIff | src/w1cip/collaboration.py:667-678 | A token is issued exactly to a member for 1 to 8760 hours; its secret authenticates exactly until then |
| CollaborationAuthority.TokenRevokedIff | src/w1cip/collaboration.py:690-700 | A token is revoked exactly by its holder or who runs the team; no secret authenticates as it then |
| CollaborationAuthority.DeviceIff | src/w1cip/collaboration.py:702-712 | A device is registered exactly for a member under an id unused in the team, at sequence 0 with no head |
| CollaborationPushes.PushIff | src/w1cip/collaboration.py:731-782 | A push is accepted as new exactly when it normalises, its sender may edit from that device, it is new and next in its chain, and its base is the key's revision; event, state row, device head, receipt and audit row then say what the mutation says. With another base a conflict row keeps what was wanted and what was there. Refused otherwise, it changes nothing |
| CollaborationPushes.ReadYourWrites | src/w1cip/collaboration.py:720-782 | After an accepted push the state answered has the pushed value under its key, or none after a delete, at the next revision, and every other key and project as before |
| CollaborationPushes.ResolutionIff | src/w1cip/collaboration.py:813-827 | A conflict is resolved exactly when it is open, the mutation aims at its project and key, the push succeeds and the closing transaction goes through; it then names the hash of the resolving event |
| CollaborationEntitlement.EveryRowWasEntitled | src/w1cip/collaboration.py:420-827 | In every reachable state each audit row was added by one call of the run, by its caller, who had the right to what it records in the very state in which it was added |
| CollaborationEntitlement.TokenWorksUntilRevoked | src/w1cip/collaboration.py:667-700 | Over any run the secret of an issued token authenticates as that token exactly until it expires or a call has revoked it, and never again after that |
| HashChain.SameHeadSameHistory | src/w1cip/collaboration.py:420-437 | Two linked logs with the same head digest are equal event by event |
| CollaborationAudit.RunChained | src/w1cip/collaboration.py:420-437 | In every reachable state, however teams interleave, the audit rows of every team are linked |
| CollaborationAudit.AuditIsAppendOnly | src/w1cip/collaboration.py:420-437 | Over any run the earlier audit log is a prefix of the later one |
| CollaborationReplay.RunFolded | src/w1cip/collaboration.py:420-782 | In every reachable state each team's members, project shares, device owners and heads, and unrevoked tokens are exactly the fold of that team's audit rows |
| CollaborationReplay.HeadDigestPinsTeam | src/w1cip/collaboration.py:838-851 | Two reachable stores that report the same head digest for a team agree on all its members, shares, device heads and live tokens |
| CollaborationMembership.RunSound | src/w1cip/collaboration.py:439-712 | In every reachable state every reference resolves, every share, device and unrevoked token belongs to a current member, and every team has an owner |
| CollaborationMembership.OwnershipIsGranted | src/w1cip/collaboration.py:486-503 | After its creation a team gains an owner only by a role change that a current owner of that team calls |
| CollaborationMembership.OutsidersHoldNothing | src/w1cip/collaboration.py:505-543 | In every reachable state whoever is not a member of a team holds no live token, device or share in it |
| CollaborationMembership.RejoiningStartsEmpty | src/w1cip/collaboration.py:563-576 | Whoever joins through an invitation, whatever they held in an earlier membership, starts with no token, device or share |
| CollaborationMembership.InvitationIsSpent | src/w1cip/collaboration.py:563-576 | Once accepted, an invitation's row is the same after any run of calls, so it admits nobody else |
| CollaborationSync.RunSynced | src/w1cip/collaboration.py:731-827 | In every reachable state the project state is the replay of the event log, device chains, audit mirror and conflict rows all agree with it, and every event fits the log before it |
| CollaborationSync.HeadIsDigest | src/w1cip/collaboration.py:745-746 | A registered device's head is absent or a real digest, so treating an empty head as none never hides a mismatch |
| CollaborationHistory.RunKeyHistory | src/w1cip/collaboration.py:747-779 | In every reachable state the events of a key have base and resulting revisions 0/1, 1/2, up to n-1/n, and its state row is revision n with the last event's value, tombstone and hash |
| CollaborationHistory.NoLostUpdate | src/w1cip/collaboration.py:747-767 | Over any run no two accepted events on a key share a base revision: the later one builds on at least what the earlier one produced |
| CollaborationHistory.RunDeviceChain | src/w1cip/collaboration.py:743-779 | In every reachable state the events accepted from a device since its current registration have sequences 1 to its last, each naming its predecessor's hash, the last being its head; removal and re-registration start afresh |
| CollaborationHistory.RunMirrored | src/w1cip/collaboration.py:780-780 | In every reachable state a team's accepted-mutation audit entries are exactly its events, in order, field by field |
| CollaborationPushes.StalePushOnlyRecords | src/w1cip/collaboration.py:750-767 | A push refused as a conflict leaves one more open conflict and one more audit row, and every other table as it was |
| CollaborationHistory.ConflictsAreResolvedOnce | src/w1cip/collaboration.py:813-827 | Whatever run of calls follows, a conflict keeps its row or leaves "open" once and for good, and only with the hash of an accepted event on its own project and key |
| CollaborationHistory.RedeliveryChangesNothing | src/w1cip/collaboration.py:738-742 | A push whose mutation id is already in the log changes no table |
| CollaborationHistory.RedeliveriesDoNotMatter | src/w1cip/collaboration.py:738-742 | Striking all redeliveries from any run ends in the same tables |
| CollaborationHistory.RedeliveryIsAcknowledged | src/w1cip/collaboration.py:738-742 | After any further calls a repeated push that is still admitted gets its original receipt if and only if it carries a timestamp or is normalised at the same clock reading |
| CollaborationExamples.HonestRetryCanBeRefused | src/w1cip/collaboration.py:738-742 | A run in which an accepted push without a timestamp is acknowledged again within the same second and refused one second later |
| CollaborationHistory.ReceiptNamesEvent | src/w1cip/collaboration.py:738-782 | Every receipt, fresh or replayed, names the ordinal, revision and hash of the event in the log that carries the pushed payload |
| CollaborationHistory.AcceptedMeansAuthorised | src/w1cip/collaboration.py:731-738 | The event log grows only by a push or a resolution, one event at a time, and only for a caller who at that moment is a member with edit access and owns the device |
| CollaborationHistory.EveryEventWasAuthorised | src/w1cip/collaboration.py:731-738 | Every event in a reachable log was appended by one call of the run, at its own position, and the caller had that right in the very state that call found |
| CollaborationHistory.EventsAreAppendOnly | src/w1cip/collaboration.py:769-773 | Over any run the earlier event log is a prefix of the later one |
| CollaborationPull.ClientSeesEachEventOnce | src/w1cip/collaboration.py:784-801 | A client that pulls from cursor 0 with any limits, among any other calls, has at every moment received an initial part of the project's events, in ordinal order and none twice |
| CollaborationPull.CaughtUpClientAgrees | src/w1cip/collaboration.py:720-729 | When a pull returns no events, folding what was received gives exactly the values and revisions of the state at that moment |
| CollaborationPull.AfterCursorIs | src/w1cip/collaboration.py:784-790 | A pull selects exactly the project's events past the cursor |
| CollaborationPull.PullAdvances | src/w1cip/collaboration.py:784-801 | A pull by who may read, for 1 to 5000 events, adds the next of the project's events to what the client has, as many as asked for or all there are; any other pull changes nothing |
| CollaborationPull.PullsReach | src/w1cip/collaboration.py:784-801 | Pulling again and again, a client that may read gets the first of the project's events in any number, up to all of them |
| ActionRuntimes.ActionRuntime.IssueApproval | src/w1cip/action_runtime.py:561-591 | Registers a signed approval bound to the action's digest, exactly when the lifetime is between 1 and 86400 seconds and the id is new |
| ActionRuntimes.ActionRuntime.BackupPath | src/w1cip/action_runtime.py:1391-1419 | Adds a backup row with everything at or under the path, or refuses by size and adds none |
| ActionRuntimes.ActionRuntime.WriteFile | src/w1cip/action_runtime.py:778-794 | Tree, backup rows and success are those of `FileActions.Write` on the old tree |
| ActionRuntimes.ActionRuntime.MakeDirectory | src/w1cip/action_runtime.py:819-823 | Tree, backup rows and success are those of `FileActions.MakeDir` on the old tree |
| ActionRuntimes.ActionRuntime.MoveFile | src/w1cip/action_runtime.py:824-831 | Tree, backup rows and success are those of `FileActions.MoveTo` on the old tree, moving inside an existing directory |
| ActionRuntimes.ActionRuntime.DeletePath | src/w1cip/action_runtime.py:832-839 | Tree, backup rows and success are those of `FileActions.DeleteTree` on the old tree |
| ActionRuntimes.ActionRuntime.DispatchAction | src/w1cip/action_runtime.py:766-839 | One dispatch changes the tree, the backups and the list of dispatched ids exactly as `FileActions.Dispatch` says |
| ActionRuntimes.ActionRuntime.Begin | src/w1cip/action_runtime.py:626-648 | Journals the action as running and consumes its one-time approval together |
| ActionRuntimes.ActionRuntime.PersistResult | src/w1cip/action_runtime.py:1102-1113 | Stores the result in the action's own row and touches no other |
| ActionRuntimes.ActionRuntime.Execute | src/w1cip/action_runtime.py:602-675 | State and answer are those of `ActionJournal.Execute`: replay or refusal of a known id, plan, approval, journal, dispatch, stored result |
| ActionRuntimes.ActionRuntime.RestoreBackups | src/w1cip/action_runtime.py:1421-1445 | Puts the backup rows back from the highest ordinal down, stopping where a parent cannot be created, exactly as `FileActions.RestoreRows` |
| ActionRuntimes.ActionRuntime.Undo | src/w1cip/action_runtime.py:677-738 | State and answer are those of `ActionJournal.Undo` |
| UndoGuarantees.RestoreIsExact | src/w1cip/action_runtime.py:1421-1445 | A restoration that completes leaves every backed-up path and everything under it as it was at backup time, on any tree and for any nesting of the paths; elsewhere it only re-creates missing directories above restored paths |
| UndoGuarantees.RestoreCompletesIff | src/w1cip/action_runtime.py:1421-1445 | A restoration completes if and only if no path to put back has a regular file above it that the rows restored before it have not cleared |
| UndoChains.DispatchProper | src/w1cip/action_runtime.py:778-839 | Every dispatch keeps the tree well formed, backs up what it found, and changes nothing outside backed-up paths but missing parents of its destination |
| UndoChains.NoMoveInside | src/w1cip/action_runtime.py:824-831 | Moving something into its own inside fails and loses nothing |
| UndoChains.UndoAllRestoresFiles | src/w1cip/action_runtime.py:778-839 | Undoing any list of file actions in reverse order always completes, every regular file and every directory is back, and all that can be left over are directories above a written, made or moved-to path, holding nothing but such directories |
| UndoChains.UndoIsInverseIff | src/w1cip/action_runtime.py:778-839 | Undoing a completed action right away gives the very same tree if and only if it had no missing parent directory to create |
| ActionEffects.DispatchDoes | src/w1cip/action_runtime.py:766-839 | Every action completes exactly when it is feasible on the workspace, and has then done what was asked path by path and nothing else; a failed one has lost nothing and left at most new directories above its destination |
| ActionEffects.WriteDoes | src/w1cip/action_runtime.py:778-794 | A write completes exactly when nothing above the path is a file and the path is no directory; the file then has exactly the content, and everything else is as before but for missing parents |
| ActionEffects.MakeDirDoes | src/w1cip/action_runtime.py:819-823 | A directory is made exactly when it is missing and its parents are there or may be made, or exists and may; everything else is as before but for missing parents |
| ActionEffects.MoveDoes | src/w1cip/action_runtime.py:824-831 | A move completes exactly when its landing place is free, or a file replaces a file, and is not inside the source; then nothing is left at or under the source, everything that was there is at the same place under the landing, and the rest is as before but for missing parents of the target |
| ActionEffects.DeleteDoes | src/w1cip/action_runtime.py:832-839 | A deletion completes exactly when the path exists and can be backed up; then nothing is left at or under it and everything else is as before |
| ActionEffects.PlanIff | src/w1cip/action_runtime.py:366-450 | An action is planned exactly when no path it changes is at or under a denied one and what it reads, moves or deletes is there |
| ActionEffects.ExecuteIff | src/w1cip/action_runtime.py:602-675 | Under a new id a request goes through to dispatch exactly when it is allowed, vouched for if the policy asks, and on an unused one-time approval; it succeeds exactly when its action is also feasible, and has then done what was asked, and the journal has request, requester, approval and result. Not let through, it is told why and changes nothing |
| ActionEffects.IssuedApprovalAdmits | src/w1cip/action_runtime.py:561-591 | From any run on, an issued approval lets exactly the action it was issued for through, until it expires and, if one-time, until it is consumed |
| ActionEffects.IssueIff | src/w1cip/action_runtime.py:561-591 | An approval is issued exactly for a lifetime of a second to a day; it is signed for exactly the action, issuer and expiry asked for and vouches for that action at once |
| ActionEffects.UndoReports | src/w1cip/action_runtime.py:677-738 | A completed undo names the paths it put back, cannot itself be undone, and is on record as the undo of its target |
| ActionEffects.UndoRefused | src/w1cip/action_runtime.py:677-738 | An undo under an unused id is refused for an unknown or irreversible target, or one without backups, without touching the workspace, and otherwise only when putting back failed |
| ActionEffects.CutOffActionStaysRunning | src/w1cip/action_runtime.py:602-675 | An action cut off after its journal row leaves that row without a result exactly when it would have been let through, and nothing is ever carried out under its id again |
| ActionEffects.CutOffUndoStaysRunning | src/w1cip/action_runtime.py:677-738 | An undo cut off leaves its row without a result exactly when its target can be undone, and its id is then refused |
| JournalGuarantees.DispatchedAtMostOnce | src/w1cip/action_runtime.py:602-675 | Over any run, crashes included, no action id is dispatched twice |
| JournalGuarantees.DispatchedWasApproved | src/w1cip/action_runtime.py:619-648 | Over any run each dispatched action that needed approval had a registered approval for its own digest that had not expired when it was journalled, and a one-time approval is marked as consumed by it |
| JournalGuarantees.OneTimeMeansOnce | src/w1cip/action_runtime.py:640-648 | Over any run no two actions that needed approval went through on the same one-time approval |
| JournalGuarantees.SpentByAnotherIff | src/w1cip/action_runtime.py:619-648 | An unconsumed approval is consumed by an action it was not issued for if and only if that action needs no approval, can be planned under a new id, and presents the approval's id as one-time |
| JournalGuarantees.ReadingCanSpendAnApproval | src/w1cip/action_runtime.py:619-648 | Reading a file under a made-up approval consumes the one issued for deleting it, and the deletion is then refused |
| JournalGuarantees.PlayKept | src/w1cip/action_runtime.py:1102-1113 | Over any run stored results and requests never change, consumed approvals stay consumed by the same action, and backups stay |
| JournalGuarantees.RefusalLeavesNothing | src/w1cip/action_runtime.py:609-648 | Whatever refuses an execution before dispatch, a consumed approval included, leaves no action row and no other trace |
| JournalGuarantees.RetryReplays | src/w1cip/action_runtime.py:612-621 | After any further calls, a request that was dispatched returns its stored result, completed or failed, without doing anything, and another request under its id is refused |
| JournalGuarantees.UndoAfterAnything | src/w1cip/action_runtime.py:677-738 | Whatever happens after a dispatched action, completed or failed, an undo of it is decided for every undo id: under an unused one it completes if and only if the action backed something up and nothing obstructs its backups, and then every backed-up path is exactly as before the action first ran; under an id already in the journal it restores nothing and answers with the result stored there, if the action is reversible and there is one |
| JournalGuarantees.UndoReplays | src/w1cip/action_runtime.py:692-694 | An undo of a reversible action under an id that is in the journal answers with whatever result is stored under that id, or is refused when none is, and changes nothing |
| JournalGuarantees.KeepsRowsIff | src/w1cip/action_runtime.py:778-839 | A dispatch has backup rows to put back if and only if it is no read, its source is there, and its first path is not too big to back up |
| JournalGuarantees.CompletedKeepsRows | src/w1cip/action_runtime.py:778-839 | A completed action other than a read always has backup rows to put back |
| JournalUndo.UndoneRunRestoresFiles | src/w1cip/action_runtime.py:602-738 | In any reachable state of the runtime, any requests in a row, completed, failed or refused, and then their undos in reverse order, all under ids not used before, bring every regular file and every directory back; all that can be left over are directories above a written, made or moved-to path |
| UndoExamples.DirectoryStaysBehind | src/w1cip/action_runtime.py:778-794 | Writing into a missing directory and undoing that leaves the directory behind |
| UndoExamples.UndoUnderAnotherIdRestoresNothing | src/w1cip/action_runtime.py:692-694 | A deletion undone under the id of a completed read is answered with the result of the read, a success, and the deleted file stays deleted |
| UndoExamples.UndoCanBeObstructed | src/w1cip/action_runtime.py:1421-1445 | After a file is deleted and another file takes the place of its directory, the undo of the deletion fails |
| ArtifactStudio.LatestReview | src/w1cip/artifact_studio.py:757-765 | The review of exactly this version and content that sorts last by time and id, or none when there is none |
| ArtifactStudio.PublicationOf | src/w1cip/artifact_studio.py:603-612 | A publication of exactly this version and content, or none when there is none |
| ArtifactStudioStores.ArtifactStudioStore.AppendEvent | src/w1cip/artifact_studio.py:396-414 | Appends one event that names the newest event's digest and carries its own |
| ArtifactStudioStores.ArtifactStudioStore.CreateDraft | src/w1cip/artifact_studio.py:416-464 | The tables and the answer are those of `ArtifactStudio.CreateDraft` |
| ArtifactStudioStores.ArtifactStudioStore.SaveVersion | src/w1cip/artifact_studio.py:466-502 | The tables and the answer are those of `ArtifactStudio.SaveVersion`: a stale parent is refused, unchanged content is answered with the current version |
| ArtifactStudioStores.ArtifactStudioStore.Review | src/w1cip/artifact_studio.py:540-584 | The tables and the answer are those of `ArtifactStudio.Review`: only the current version, never by its author |
| ArtifactStudioStores.ArtifactStudioStore.Record | src/w1cip/artifact_studio.py:627-657 | Records a publication, the new base hash and the event in one transaction, or nothing |
| ArtifactStudioStores.ArtifactStudioStore.Publish | src/w1cip/artifact_studio.py:586-658 | Tables, runtime and answer are those of `ArtifactStudio.Publish` on the old ones |
| ArtifactStudioStores.ArtifactStudioStore.VerifyEvents | src/w1cip/artifact_studio.py:718-734 | Reports no damage exactly when the event chain is linked |
| ArtifactStudioStores.ArtifactStudioStore.VerifyVersions | src/w1cip/artifact_studio.py:740-746 | Reports no damage exactly when each version's hash fits its content and names its predecessor's hash |
| ArtifactStudioStores.ArtifactStudioStore.Verify | src/w1cip/artifact_studio.py:716-747 | Reports no damage exactly when the event chain and every artifact's versions fit |
| ArtifactStudioStores.ReachableStudiosVerify | src/w1cip/artifact_studio.py:716-747 | In every reachable state all that `verify` checks holds, and each artifact's versions are numbered 1 to its current version |
| StudioEdits.ArtifactIdIff | src/w1cip/artifact_studio.py:29-29 | An artifact id is valid exactly when its parts between hyphens are non-empty and made of small letters and digits |
| StudioEdits.DraftIff | src/w1cip/artifact_studio.py:416-464 | A draft is created exactly under a valid unused id and an unused spelling of an allowed text path, within the size limit; it has the text given or else the file's, and as its base the hash of the file there |
| StudioEdits.SaveIff | src/w1cip/artifact_studio.py:466-502 | Saving is compare-and-swap: it succeeds exactly when the newest version has the expected hash, and is otherwise refused without a change; new content becomes the next version, by its author, on that parent |
| StudioEdits.ReviewIff | src/w1cip/artifact_studio.py:540-584 | A review is recorded exactly for the newest version, with a known outcome and a reason, by someone other than its author |
| StudioEdits.ReviewDecides | src/w1cip/artifact_studio.py:757-765 | A review later than the others of its version decides alone whether the version is approved |
| StudioEdits.GateIff | src/w1cip/artifact_studio.py:595-612 | Publication is open exactly when the newest version's latest review approves it, its path is allowed, the file is still its base and it has no publication yet; with one it is answered with that |
| StudioEdits.PublishIff | src/w1cip/artifact_studio.py:586-658 | The first attempt to publish a version succeeds exactly when publication is open and the runtime lets the write through and can carry it out; the file then holds the content, the record says so, and the version and its artifact have its hash as their base. Refused, it changes no table of the studio |
| StudioHistory.EveryVersionWasSaved | src/w1cip/artifact_studio.py:416-502 | In every reachable state each version was added by one call of the run: the first by a draft, every later one by a save that expected the hash of the version just before it, with that call's content and author |
| StudioGuarantees.PublicationsWereReviewed | src/w1cip/artifact_studio.py:586-658 | In every reachable state each publication names an existing version with that content hash, approved by someone other than its author, and no version has two publications |
| StudioGuarantees.OnlyLatestApprovalPublishes | src/w1cip/artifact_studio.py:595-602 | A publish call changes anything only when the latest review of the current content approves and the file still has the version's base hash |
| StudioGuarantees.PlayConsistent | src/w1cip/artifact_studio.py:416-658 | In every reachable state versions are numbered, hashed and linked, events are linked, reviews and publications fit their versions, and each version carries the base hash of its lineage |
| StudioGuarantees.WritesOnlyOverBase | src/w1cip/artifact_studio.py:599-625 | If a publish touches the workspace, whatever it then reports, the file held exactly the version's base before and holds the version's content after, with nothing else changed than by that write |
| StudioGuarantees.PublishedBytesIff | src/w1cip/artifact_studio.py:613-641 | A new publication's recorded workspace hash is the hash of its content if and only if this call executed the write or the content was already there |
| StudioGuarantees.FailedWriteThenRecorded | src/w1cip/artifact_studio.py:625-658 | After a failed write over an existing file, publishing again is reported and recorded as a success although the file is unchanged |
| StudioExamples.UnwrittenPublicationIsReachable | src/w1cip/artifact_studio.py:586-658 | A reachable studio in which the write of an approved draft is refused and the next publish records the draft as published, with a workspace hash that is not its content hash |
| StudioGuarantees.WrittenAtMostOnce | src/w1cip/artifact_studio.py:613-625 | Over any run of studio and runtime calls each version's publication is dispatched at most once |
| CapacityRouter.Round | src/w1cip/capacity_router.py:323-323 | The nearest integer, halves to even |
| CapacityRouter.RankRole | src/w1cip/capacity_router.py:379-438 | The ranking of the accepted profiles and the rejections in the order given, or an error when a derived observation is invalid |
| CapacityRouter.TakeSeats | src/w1cip/capacity_router.py:477-488 | The primaries, the rest, the passed-over models and the running total of the greedy choice `CapacityRouter.Take` |
| CapacityRouter.SeatRole | src/w1cip/capacity_router.py:475-500 | One role of the plan: ranking, seats, fallbacks, members, warnings and running total are those of `CapacityRouter.FillSeat` |
| CapacityRouter.PlanTeam | src/w1cip/capacity_router.py:452-539 | The whole plan or refusal is that of `CapacityRouter.MakePlan` |
| RoutingGuarantees.SeatsKeepThePolicy | src/w1cip/capacity_router.py:475-500 | Every seat of every plan, fallbacks included, comes from an enabled profile whose observation passes all gates for its role; a subscription without proven entitlement is never seated |
| RoutingGuarantees.BetterNeverScoresLower | src/w1cip/capacity_router.py:401-431 | Of two offers of the same kind, the one of at least the quality and at most the price never scores lower |
| RoutingPreferences.SourceIsWorthQuality | src/w1cip/capacity_router.py:370-404 | In each routing mode an offer scores like an otherwise equal paid one of a quality higher by exactly the lead of its source, and by 0.03 more when it costs nothing |
| RoutingPreferences.SourcesAreOrdered | src/w1cip/capacity_router.py:370-377 | Of offers alike but for their source, maximum-free prefers official free, local, subscription, promotional, third-party free and paid in this order, the balanced modes put subscriptions before local models, and local-only prefers local |
| RoutingPreferences.QualityOutweighsSource | src/w1cip/capacity_router.py:370-373 | In the mode of maximum quality a lead in quality above 0.04, or 0.05 among offers that cost nothing, outweighs any difference in source |
| RoutingPreferences.QuotaAndTermsAreWorthQuality | src/w1cip/capacity_router.py:408-419 | A known quota is worth exactly 0.02 of quality over an unknown one and a low one 0.06 less; official terms 0.03 and verified ones 0.01 over unknown ones |
| RoutingPreferences.NewProviderIsWorthQuality | src/w1cip/capacity_router.py:420-426 | For checking roles, when diversity is preferred, a provider not yet seated is worth exactly 0.14 of quality over a seated one; otherwise the provider does not count |
| RoutingPreferences.QualityAndPriceCount | src/w1cip/capacity_router.py:401-427 | A hundredth of quality is worth a point, and a call takes a point a cent off, twenty at most |
| RoutingPreferences.PlainScore | src/w1cip/capacity_router.py:401-427 | A paid offer of unknown quota and terms that costs nothing scores its quality alone, less 32 points in maximum-free and 100 in local-only |
| RoutingPreferences.QualityIs | src/w1cip/capacity_router.py:315-323 | Quality is the best capability that counts for task and role, 0.12 more if the role is listed and 0.04 for each shared domain up to two, and at most 1 |
| RoutingPreferences.SeatFillsIff | src/w1cip/capacity_router.py:475-490 | A role is filled exactly when every enabled unused profile makes sense and the greedy choice finds enough models; the refusal says which of the two failed |
| RoutingPreferences.SoloSucceedsIff | src/w1cip/capacity_router.py:452-539 | A solo plan without a budget succeeds exactly when it has an id and a name, every enabled profile makes sense and some model can sit there |
| RoutingPreferences.SoloSeatsTheBest | src/w1cip/capacity_router.py:428-539 | A solo plan without a budget seats a model that could sit there and scores at least as high as any other that could, of equals the cheapest, and of these the one whose id comes first |
| RoutingPreferences.FreeComesFirst | src/w1cip/capacity_router.py:370-401 | In a solo plan of maximum-free, a paid model is seated over a zero-price official-free one of the same quota and terms only with a lead in quality of at least 0.73, and 0.01 more for each cent it costs |
| RoutingPreferences.PaidNeverSeatedOverFree | src/w1cip/capacity_router.py:370-401 | So with a quality floor above 0.27 it never is |
| RoutingPreferences.RejectedRightly | src/w1cip/capacity_router.py:325-367 | The reason of a rejection holds, every such fault keeps an offer out, and nothing else does |
| RoutingPreferences.RejectedAre | src/w1cip/capacity_router.py:390-486 | A role lists as rejected exactly the models a gate kept out, with its reason, and those passed over because they would have broken the running budget |
| RoutingPreferences.FallbacksAreNextBest | src/w1cip/capacity_router.py:475-500 | The fallbacks of a role are the next best: an eligible model left out was too dear at its turn, or ranks after all of as many fallbacks as the policy wants |
| RoutingPreferences.PlanFallsBackOnNextBest | src/w1cip/capacity_router.py:440-500 | In every role of every plan but a solo one the fallbacks are the next best |
| RoutingPreferences.RefusedAtOnce | src/w1cip/capacity_router.py:452-474 | An unknown team mode is refused first, and then a plan without models |
| RoutingPreferences.PlanWarns | src/w1cip/capacity_router.py:499-533 | A plan warns of a fallback chain exactly for the roles that have one, and of missing diversity exactly when a checking team has fewer than two providers; it runs the producers' number in parallel, or all members if fewer |
| RoutingPreferences.NamesParse | src/w1cip/capacity_router.py:292-313 | Every name of a source, quota or terms is read as what it names; an unknown source is paid, other unknown names are refused |
| RoutingPreferences.ObservationIs | src/w1cip/capacity_router.py:292-313 | A recorded observation counts; without one a profile is taken for what its metadata says, with the defaults of its kind, and is refused when that makes no sense |
| RoutingGuarantees.SortOrders | src/w1cip/capacity_router.py:437-437 | Ranking sorts by score, then cost, then model id, and neither adds nor loses a candidate |
| RoutingGuarantees.OrderedUnique | src/w1cip/capacity_router.py:437-437 | The ranking of distinct models is unique: two ordered rankings of the same candidates are the same sequence |
| RoutingGuarantees.RankedAre | src/w1cip/capacity_router.py:390-438 | A role's ranking is ordered and holds exactly the unused profiles that pass every gate |
| RoutingGuarantees.TakeAccounts | src/w1cip/capacity_router.py:477-488 | At most the wanted number is chosen, the running total grows by exactly their costs and never passes the budget |
| RoutingGuarantees.TakeIsGreedy | src/w1cip/capacity_router.py:479-488 | A passed-over candidate would have broken the budget on top of the primaries ranked before it; a remaining one ranks after every primary |
| RoutingGuarantees.PlanHasItsSeats | src/w1cip/capacity_router.py:440-450 | Every plan has, role by role, exactly the number of required seats its team mode calls for |
| RoutingGuarantees.NoModelTwice | src/w1cip/capacity_router.py:494-498 | No model sits in two seats of a plan |
| RoutingGuarantees.LateChecksNeverFail | src/w1cip/capacity_router.py:509-528 | The budget check after the portfolio is built never fails; for distinct models the portfolio is refused only when the plan has no id or name |
| RoutingGuarantees.PlanAccounts | src/w1cip/capacity_router.py:475-539 | One route per role with every seat past all gates, members exactly the routes' selections with ascending priorities, and an estimate equal to the required seats' costs and within the budget |
| RoutingGuarantees.PlanSkipsOnlyForBudget | src/w1cip/capacity_router.py:475-489 | In every role of every plan, an eligible unused model ranked before a chosen primary is left out only because its cost at its turn would break the running budget |
| RoutingGuarantees.ShortOnlyForBudget | src/w1cip/capacity_router.py:489-490 | When a role cannot be filled, every eligible model was chosen or would have broken the budget at its turn |
| RoutingGuarantees.OrderOfProfilesDoesNotMatter | src/w1cip/capacity_router.py:452-539 | Giving the same distinct profiles in another order yields the same members, roles, priorities, cost and warnings, the same rejections up to order, or the same refusal |
| ConversationContext.Quarter | src/w1cip/conversation_context.py:28-30 | A quarter of a length rounded up, and at least one |
| ConversationContext.LatestExists | src/w1cip/conversation_context.py:233-242 | A conversation with a summary has exactly one latest summary, the one reaching furthest |
| ConversationStores.ConversationStore.AppendMessage | src/w1cip/conversation_context.py:156-190 | The tables and the answer are those of `ConversationContext.AppendMessage` on the old tables |
| ConversationStores.ConversationStore.RecordSummary | src/w1cip/conversation_context.py:211-231 | The tables and the answer are those of `ConversationContext.RecordSummary`; a summary with the same end is replaced |
| ConversationStores.ConversationStore.PackRecent | src/w1cip/conversation_context.py:287-298 | The backward pass chooses and charges exactly what `ConversationContext.Pack` says |
| ConversationStores.ConversationStore.BuildContext | src/w1cip/conversation_context.py:244-313 | The context or refusal is that of `ConversationContext.BuildContext`, and no table changes |
| ContextGuarantees.PlayConsistent | src/w1cip/conversation_context.py:156-231 | In every reachable state messages are numbered 1, 2, and so on, and every summary covers a real range |
| ContextGuarantees.PlayOnlyGrows | src/w1cip/conversation_context.py:156-190 | Over any run a conversation's earlier history is a prefix of its later one |
| ContextHistory.AppendIff | src/w1cip/conversation_context.py:156-190 | A message is stored exactly when its role is known and it has content, as given, as the next of its conversation, and nothing else stored changes |
| ContextHistory.SummaryIff | src/w1cip/conversation_context.py:211-231 | A summary is stored exactly for a real range and with text, as given, in place of one with the same end only |
| ContextHistory.EveryMessageWasAppended | src/w1cip/conversation_context.py:156-190 | In every reachable state each message is what one call of the run gave, in the order of the calls |
| ContextHistory.SummaryUsedIff | src/w1cip/conversation_context.py:233-266 | The summary that reaches furthest is used exactly when it fits with 36 tokens on top, no other ever is, and messages up to its end count as summarised |
| ContextHistory.RequestedIs | src/w1cip/conversation_context.py:272-277 | Memory is asked for the size given, or a quarter of the budget between 128 and 800 tokens, and no more than what is left less 64, or 64 |
| ContextHistory.ContextSucceedsIff | src/w1cip/conversation_context.py:244-285 | A context is refused exactly for a budget out of range or more memory than a bundle may hold |
| ContextHistory.BundleIsMaximal | src/w1cip/memory.py:1460-1485 | A hit that is not in the bundle repeats a key that is, or does not fit any more |
| ContextHistory.FirstHitsStay | src/w1cip/memory.py:1460-1485 | What the bundle takes of the first hits it keeps, whatever follows |
| ContextHistory.ContextReports | src/w1cip/conversation_context.py:286-313 | The history tokens are the costs of all considered messages, less two for each, and the saving is what of them was not used; the considered messages are the first 1000 |
| ContextHistory.ContextOfOne | src/w1cip/conversation_context.py:256-300 | A conversation of one message of four letters is charged 33 tokens in all, and 7 as history |
| ContextGuarantees.BundleFits | src/w1cip/memory.py:1460-1485 | A memory bundle is charged for exactly what it holds, never repeats a key and stays within its budget |
| ContextGuarantees.RecallFits | src/w1cip/conversation_context.py:272-285 | Memory is charged at most what is left less 64 tokens, or 64 tokens when less than 128 are left |
| ContextGuarantees.ContextIs | src/w1cip/conversation_context.py:256-300 | A context taken apart by its inputs: the latest summary if it fits, the memories of the bundle of the requested size, the messages packed on top of both, and the omitted count |
| ContextGuarantees.ContextIsBounded | src/w1cip/conversation_context.py:256-300 | Decided by the inputs: a context exceeds its budget exactly when memory is asked for, the bundle of the requested size is not empty, and it does not fit on top of the used summary; that takes fewer than 64 tokens left after the summary, and it is never by more than 64 |
| ContextGuarantees.BudgetCanBeExceeded | src/w1cip/conversation_context.py:273-285 | A budget of 128 with a summary of 92 tokens and one remembered fact yields a context of 177 tokens |
| ContextGuarantees.ReplayedExactlyWhenFitting | src/w1cip/conversation_context.py:289-298 | The replayed messages are, in order, exactly the considered unsummarised ones that fit on top of summary, memory and the newer chosen ones |
| ContextGuarantees.OmittedCountsTheSkipped | src/w1cip/conversation_context.py:299-299 | The omitted count is the number of skipped unsummarised messages among those considered; it is that of the whole conversation if and only if there are at most 1000 messages or the summary covers all |
| ContextGuarantees.NewestCanBeLost | src/w1cip/conversation_context.py:201-209 | After 1001 short messages the newest is not replayed although it fits, and the omitted count is not that of the conversation |
| ContextGuarantees.NewestWinsIff | src/w1cip/conversation_context.py:201-209 | The newest unsummarised message that fits on its own is replayed if and only if the conversation has at most 1000 messages |

## Left out

- HTTP, TLS, command line, desktop shell and the embedded service: transport around the calls modelled here; every service method authenticates a token and forwards to one call.
- SQLite itself and threads: a transaction is one atomic step, and what a call reads before its transaction is not interleaved with other calls.
- Cryptography and JSON: digests, signatures and encodings are injective symbols; comparing digests in constant time is plain equality.
- Text forms of wire fields that are not strings, such as numbers turned into text, and lower-casing outside ASCII.
- Timestamps: a client's own text and the store's clock are kept apart, so a client that guesses the store's spelling of a second counts as having sent a different text; one clock reading, in whole seconds, serves a whole transaction.
- Read-only listings (`list_teams`, `list_members`, `list_projects`, `list_conflicts`, `list_audit`, `list_actions`, `history`): queries without state of their own.
- Commands, Git worktrees, computer use, ephemeral inputs and staged binary publication in the action runtime: other kinds of action behind the same journal.
- Symbolic links, permission bits, text encodings and the workspace root as a target: the workspace is a tree of directories and regular files addressed by component paths.
- Protected paths are given as path prefixes rather than shell patterns, and the backup size limit as a test on what would be backed up.
- A restoration that fails in the middle of copying one path, other than at creating its parent; crashes may leave any tree at all.
- Reading files: `file.read` is only a check that the file exists; limits and decoding of what it returns are not modelled.
- Publication and review identifiers: digests of their fields in the program; a publication collides when artifact, version and final hash agree, a review id is an input.
- Comments, artifact kinds, the file tree, previews and Git differences of the studio; what reading a workspace file as text yields is a function given by the installation.
- ArtifactStudioStores.ArtifactStudioStore.Verify: walks all artifacts, without the program's cap at the 100000 most recently updated ones, because update times of artifacts are not modelled.
- Floating point in the router: scores and costs are exact reals rounded, as the program rounds them, to millionths and hundred-millionths of a dollar.
- The router's explanatory reason texts, its observation store and telemetry adapters, and the portfolio's metadata and display fields.
- RoutingGuarantees.OrderOfProfilesDoesNotMatter: holds for profiles with distinct model ids; of several invalid observations only the fact of a refusal is compared, not which one is reported first.
- Memory search in the context assembly: its results are an input; only the packing of the bundle is modelled.
- Evaluation, brand identity, AI connection ledgers and other modules with audit chains of the same kind: they would only repeat the theorems about linked logs.
