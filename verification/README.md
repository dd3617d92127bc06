# Verified model of the deal platform's identity, ingest, retrieval and contract core

The backend serves many organisations (tenants) from one PostgreSQL database. Row-level security filters
every statement by the transaction setting `app.org_id`; Clerk is the external directory of memberships and
mints the tokens. This project models the parts whose correctness spans several functions, and proves what
they keep over every input, every interleaving and runs of any length.

| Modules | What they model |
|---|---|
| `Tenancy`, `DeferredWrites`, `OrmSession` | The tenant tables with row-level security, Core statements that take effect at once, unit-of-work writes that wait for a flush, and the session that re-points its scope in mid-transaction |
| `AdminAccess`, `MemberRoutes`, `MemberListing`, `Outcomes` | Just-in-time admin provisioning with the downgrade sync and its grace window, the guards, the four member-management handlers with their exact replies and effects, and the cross-org list |
| `CrossOrgProgram`, `AdminTheorems`, `AdminRuns`, `RoleSync`, `Witnesses` | What the handlers and requests keep: deferred writes equal immediate ones, tenant isolation, the kind invariant, the last active admin, no false and bounded revocation over runs, agreement of the three stores that hold a role, and inputs on which the portal falls short |
| `PooledScopes`, `JitRace` | Two interleaving machines: clients sharing pooled backends, and racing first requests |
| `Ingest`, `IngestJob`, `UploadVerdicts` | The upload protocol with at-least-once delivery, crashes and the one-way trigger; the code path by path; verdicts and duplicate detection |
| `Fusion`, `FusionTheorems`, `HybridSearch`, `SearchMeaning` | Reciprocal Rank Fusion, what truncating its legs costs, the search with its hydration, and the memory-scope guard |
| `ClaimNames`, `JsonSchema`, `ClaimContract`, `ClaimStorage`, `ClaimAgreement`, `ClaimMeaning` | The claim contract and the table's CHECK constraints, both as data with an evaluator, and the flattening between them |
| `ObjectKeys`, `Streams`, `Embedding` | Object keys, the bounded streaming hash, and batched embedding |

The handlers, the session, the fusion loop, the flattening, the streaming hash and the embedding loop are
methods with loops and mutable state. Each is proved against a specification, and the theorems are about
that specification.

## What is not true of the code, and exactly when it is

Each item names the lemma with the exact condition and the lemma with an input that fails.

- A promotion is promised a grace window. A promotion that inserts the row leaves `updated_at` NULL, so the
  next stale token revokes it. It is kept if and only if the row existed and the window is open
  (`AdminRuns.PromotionGraceExactly`, `Witnesses.FirstPromotionRevoked`).
- "The last active admin cannot be demoted" fails on one path: a cross-org demotion of a user whose
  directory role is neither `org:admin` nor `org:member` skips the count
  (`AdminTheorems.LastActiveAdmin`, `Witnesses.LastAdminTaken`).
- An own-org promotion of a user whose admin row belongs to another org raises after the directory was
  changed (`AdminTheorems.HandlerRaisesExactly`, `Witnesses.PromotionRaises`).
- "A non-admin token grants nothing" holds for provisioning. Inside the window its caller still passes the
  guard and can promote somebody (`AdminTheorems.RequestGrantsExactly`, `Witnesses.StaleTokenGrants`).
- "A removed member is left no portal access" holds for own-org removal. A cross-org removal trusts the
  directory's role: it leaves an active admin row exactly when there was one and the directory did not say
  `org:admin` (`RoleSync.CrossOrgRemovalLeavesAccessExactly`, `Witnesses.CrossOrgRemovalLeavesAccess`).
- A cross-org promotion leaves the three stores in agreement exactly when there is an admin row to promote
  or the org knows no such user (`RoleSync.CrossOrgChangeSyncsExactly`, `Witnesses.CrossOrgPromotionDisagrees`).
- "Live memberships win over removed rows" holds for the first 500 memberships, the one page that is fetched
  (`MemberListing.ListsDirectoryExactly`, `MemberListing.ReinvitedListedExactly`,
  `Witnesses.LiveMemberListedAsRemoved`).
- A terminal status tells the truth about the row's declared hash exactly when the deciding job declares that
  hash, or the object was too large or equals neither hash. Two completions of one upload id with different
  hashes break it (`UploadVerdicts.VerdictsAreFaithfulExactly`, `UploadVerdicts.SecondBodyQueuesItsJob` with
  `UploadVerdicts.OtherBodyMisleads`).
- "No two live uploads of one file in a deal" is checked at presign time. A run keeps it
  exactly when every upload would still pass that check at its commit
  (`UploadVerdicts.UploadsAreDistinctExactly`, `UploadVerdicts.OpenPresignsDuplicate`).
- "Found by both legs beats found by one" holds for legs of at most k + 1 ids, and not for k + 2; by default
  it holds up to `top_k` = 15 and at no greater one (`FusionTheorems.BothLegsFirst`,
  `FusionTheorems.OneLongerAndTheyTie`, `HybridSearch.SixteenIsTooMany`).
- Object keys separate orgs while org ids hold no hyphen (`ObjectKeys.KeysCollideExactly`,
  `ObjectKeys.HyphenatedOrgsCollide`).

Where the documentation disagrees with the code the model follows the code: `reactivate_if_exists` stamps
`updated_at` although it does not mention it (the column's `onupdate` applies to Core updates, as
app/models/clerk_admin_user.py:49-54 says and tests/test_admin_portal.py:1543-1544 asserts, against the
docstring at app/repo/AdminUserRepo.py:43-47), and inactive admin rows are re-activated although
app/models/clerk_admin_user.py:44-45 says nothing does.

## Model

| member | source | states |
|---|---|---|
| `Tenancy.ExecStaysInScope` | app/repo/AdminUserRepo.py:40-84 | An admin-table statement changes no admin or user row outside the scope's org, no organisation and no audit row |
| `Tenancy.EmitStaysInScope` | app/core/database.py:25-31 | An emitted queued write changes no row outside the scope in force when it is emitted |
| `DeferredWrites.CoreCommutesWithQueue` | app/core/database.py:25-31 | A Core statement and the waiting queue commute under one scope, failures included |
| `DeferredWrites.DeferralIsImmediate` | app/core/admin_dependencies.py:161-176 | For every program that flushes before it re-points the scope, the queued-until-flush session ends in the same tables, or aborts alike, as writing at once |
| `DeferredWrites.OneScopeIsDisciplined` | app/jobs/tasks/ingest_data_source.py:38-44 | Every program that sets its scope once has that discipline, whatever it queues |
| `DeferredWrites.UnflushedUpdateAborts` | app/api/admin/platform_members.py:185-190 | Without the flush a queued update that changes the user's role meets the wrong scope and the transaction aborts, where writing at once would succeed |
| `OrmSession.Session.Begin` | app/core/admin_dependencies.py:153-157 | A new transaction starts from the committed tables with no scope and no queue |
| `OrmSession.Session.SetScope` | app/core/admin_dependencies.py:161-176 | Re-points the scope and flushes nothing |
| `OrmSession.Session.Assign` | app/api/admin/platform_members.py:184-185 | Assigning to a loaded row queues its update only when it changes the row |
| `OrmSession.Session.Execute` | app/repo/AdminUserRepo.py:40-84 | A Core statement acts at once under the present scope and leaves the queue alone |
| `OrmSession.Session.Flush` | app/core/database.py:25-31 | Emits the whole queue in order under the present scope, or fails |
| `OrmSession.Session.Commit` | app/core/admin_dependencies.py:145-158 | Publishes the flushed tables; a failing flush publishes nothing |
| `OrmSession.Session.Rollback` | app/core/admin_dependencies.py:130-144 | Leaves the committed tables as they were |
| `AdminAccess.EnsureOrgProvisioned` | app/core/admin_dependencies.py:23-55 | Ends with the token's organisation present, with a fresh key only when it was absent, or raises when it cannot be fetched |
| `AdminAccess.EnsureAdminProvisioned` | app/core/admin_dependencies.py:58-118 | Refines the provisioning function: sync with grace, no grant to non-admin tokens, create or reactivate |
| `AdminAccess.OpenAdminSession` | app/core/admin_dependencies.py:121-158 | Provisioning is committed on its own before the second transaction opens; when it raises nothing is committed |
| `MemberRoutes.RemoveMemberHandler` | app/api/admin/members.py:59-124 | With queued writes, leaves what the immediate-write specification says once committed, or replies as it does |
| `MemberRoutes.UpdateMemberRoleHandler` | app/api/admin/members.py:128-218 | The same for the own-org role change, for every order of its guards and failures |
| `MemberRoutes.UpdateOrgMemberRoleHandler` | app/api/admin/platform_members.py:112-212 | The same for the cross-org role change, across its two re-scopings and its flush |
| `MemberRoutes.RemoveOrgMemberHandler` | app/api/admin/platform_members.py:216-293 | The same for the cross-org removal |
| `MemberRoutes.GuardAndHandle` | app/core/admin_dependencies.py:179-209 | Guard and handler together leave what the specification says of every endpoint, refusals included |
| `MemberRoutes.ServeRequest` | app/core/admin_dependencies.py:121-158 | One request end to end on sessions and directory equals the request's specification, whatever the reply |
| `MemberRoutes.ServeRequestInOneTransaction` | app/core/admin_dependencies.py:130-144 | The design that the code avoids, on the same sessions: its outcome is provisioning, guard and handler rolled back together |
| `Outcomes.RemoveMemberReplies` | app/api/admin/members.py:77-101 | Behind the guard, exactly when own-org removal answers each of its replies: refused only to the caller's own row, since the count check can never fire there |
| `Outcomes.UpdateMemberRoleReplies` | app/api/admin/members.py:138-170 | Exactly when the own-org role change answers each of its replies: refused to the caller's own row, and for a user called an admin when the caller is the only active admin; a change to the role held changes nothing |
| `Outcomes.UpdateOrgMemberRoleReplies` | app/api/admin/platform_members.py:137-174 | Exactly when the cross-org role change does: refused in the platform org, to the caller, and for a listed org:admin of an org with at most one active admin |
| `Outcomes.RemoveOrgMemberReplies` | app/api/admin/platform_members.py:229-261 | Exactly when the cross-org removal does |
| `Outcomes.RemoveMemberLeaves` | app/api/admin/members.py:98-124 | What a committed own-org removal leaves: the membership gone, one user row inactive and stamped, the admin row deactivated if it was active, one audit row with the caller and the target |
| `Outcomes.UpdateMemberRoleLeaves` | app/api/admin/members.py:165-210 | What a committed own-org role change leaves: directory role, one user's role, the admin row promoted, created or deactivated, one audit row with old and new role |
| `Outcomes.UpdateOrgMemberRoleLeaves` | app/api/admin/platform_members.py:169-190 | What a committed cross-org role change leaves in directory, users and admin table |
| `Outcomes.UpdateOrgMemberRoleLogs` | app/api/admin/platform_members.py:192-210 | Its one audit row: the caller's org, caller and e-mail, target, old and new role, and whether a user row was written |
| `Outcomes.RemoveOrgMemberLeaves` | app/api/admin/platform_members.py:258-274 | What a committed cross-org removal leaves in directory, users and admin table |
| `Outcomes.RemoveOrgMemberLogs` | app/api/admin/platform_members.py:276-292 | Its one audit row |
| `Outcomes.RefusalsLeaveDirectory` | app/api/admin/members.py:134-137 | A refused or failed request has changed neither the directory nor the tables |
| `Outcomes.AdminTokenIsLetIn` | app/core/admin_dependencies.py:92-118 | Provisioning that succeeds with an admin token leaves an active row, created with the org's key, the fetched e-mail and the right kind if there was none |
| `Outcomes.ProvisioningAddsOnly` | app/core/admin_dependencies.py:23-118 | Provisioning adds at most the token's organisation, with the next key, and at most an admin token's own row; users and audit rows stay |
| `Outcomes.PoliciesExactly` | app/core/admin_dependencies.py:161-176 | Exactly which queued writes the scope in force lets through |
| `MemberListing.ListOrgMembers` | app/api/admin/platform_members.py:73-108 | Each user at most once; all fetched memberships with the directory's role and exactly the removed users without a fetched one; fails exactly when the directory does or a removed row's role has no name |
| `MemberListing.ListsDirectoryExactly` | app/services/admin/clerk_admin.py:139-153 | The list speaks for the whole directory if and only if the org has at most 500 members |
| `MemberListing.RemovalMovesToRemoved` | app/api/admin/platform_members.py:216-293 | After a committed cross-org removal the user is never listed as active, and is listed as removed exactly when the org's table knows the user |
| `MemberListing.ReinvitedListedExactly` | app/api/admin/platform_members.py:86-90 | A membership that is back is listed once: as live if and only if it is among the first 500 in the directory's order, else still as removed |
| `CrossOrgProgram.FlushedProgramIsDisciplined` | app/api/admin/platform_members.py:176-210 | The program of both cross-org handlers never re-points the scope with writes waiting |
| `CrossOrgProgram.DeferredIsImmediate` | app/api/admin/platform_members.py:263-292 | For every tables, statement, user write and audit row, that program ends in the tables of immediate writes or aborts as they do |
| `CrossOrgProgram.DeferredRoleChangeCommitsTheSame` | app/api/admin/platform_members.py:176-210 | A cross-org role change that commits leaves the tables that immediate writes leave |
| `CrossOrgProgram.DeferredRemovalCommitsTheSame` | app/api/admin/platform_members.py:263-292 | The same for a cross-org removal that commits |
| `CrossOrgProgram.WithoutFlushItAborts` | app/api/admin/platform_members.py:185-190 | Without its flush the program of either handler aborts when its write changes another org's user row |
| `CrossOrgProgram.RoleChangeNeedsFlushExactly` | app/api/admin/platform_members.py:182-190 | Without the flush a committed role change would abort if and only if the target org has the user's row with another role |
| `AdminTheorems.ProvisionKeepsGood` | app/core/admin_dependencies.py:92-118 | Provisioning keeps the kind invariant, moves no row and touches no other org |
| `AdminTheorems.HandlerEffect` | app/api/admin/platform_members.py:176-210 | Each committed handler is one admin statement under the target's scope, no user row elsewhere, and at most one audit row with the caller's own org key |
| `AdminTheorems.HandleKeepsGood` | app/api/admin/members.py:173-189 | The four handlers keep the invariant and move no row to another org |
| `AdminTheorems.ServeKeepsGood` | app/core/admin_dependencies.py:101-118 | A whole request, whatever its reply, keeps: platform kind exactly in the configured platform org, rows keyed by their own org, no row moved |
| `AdminTheorems.ServeIsolatesThirdOrgs` | app/core/admin_dependencies.py:161-176 | A request leaves the admin and user rows of every org but the caller's and the target's unchanged, and its audit row is in the caller's org |
| `AdminTheorems.RejectionKeepsProvisioning` | app/core/admin_dependencies.py:130-144 | When guard or handler rejects, the database is the one after provisioning alone; when provisioning raises, the original |
| `AdminTheorems.OneTransactionLosesRevocation` | app/core/admin_dependencies.py:130-144 | The sync's revocation of the caller stays although the guard then refuses; in one transaction the refusal would undo it |
| `AdminTheorems.GuardMatchesCommittedRow` | app/core/admin_dependencies.py:179-209 | A guard passes exactly when the row that provisioning committed is active in the token's org (and that org is the platform org) |
| `AdminTheorems.HandlerRaisesExactly` | app/api/admin/members.py:165-187 | The actor assertion (app/core/admin_dependencies.py:218), the flushes and the policies never fail behind a guard, except for a promotion of a user with an admin row elsewhere, and then the directory has already changed |
| `AdminTheorems.ProvisionRaisesExactly` | app/repo/AdminUserRepo.py:54-70 | Provisioning raises exactly when the organisation cannot be fetched or an admin token's user has a row in another org |
| `AdminTheorems.OwnOrgCallerSurvives` | app/api/admin/members.py:80-107 | In own-org requests the caller's row is untouched, so the org keeps an active admin |
| `AdminTheorems.LastActiveAdmin` | app/api/admin/platform_members.py:159-180 | A handler takes an org's last active admin if and only if it is a cross-org demotion that skipped the count check |
| `AdminTheorems.SyncTakesLastAdminExactly` | app/core/admin_dependencies.py:82-86 | Provisioning takes the last active admin if and only if that is the caller, with a non-admin token outside the window |
| `AdminTheorems.ProvisioningGrantsNothing` | app/core/admin_dependencies.py:89-90 | Provisioning with a non-admin token never enlarges any org's active admins; with an admin token it adds at most its user in its own org |
| `AdminTheorems.RequestGrantsOnly` | app/core/admin_dependencies.py:74-90 | Over a whole request, whoever is newly an active admin is the caller with an admin token of that org, or the user the request promotes behind a guard; with a non-admin token only through an active row inside its window |
| `AdminTheorems.RequestGrantsExactly` | app/core/admin_dependencies.py:74-90 | With a non-admin token a request makes a given user a new active admin if and only if the caller's active row is inside its window and the promotion takes: guard, self-check, directory, no-op check and the place of the user's admin row all let it through |
| `Witnesses.StaleTokenGrants` | app/core/admin_dependencies.py:82-87 | Such a request: a non-admin token inside the window promotes another user |
| `Witnesses.LastAdminTaken` | app/api/admin/platform_members.py:159-180 | Tables, directory and request behind a passing guard where a demotion takes the last active admin |
| `Witnesses.PromotionRaises` | app/api/admin/members.py:165-187 | One where a promotion raises with the directory already changed |
| `Witnesses.FirstPromotionRevoked` | app/repo/AdminUserRepo.py:59-70 | One where the first promotion is revoked by a stale token in the same second |
| `Witnesses.CrossOrgPromotionDisagrees` | app/api/admin/platform_members.py:169-190 | One where the three stores agree before a cross-org promotion and not after it |
| `Witnesses.CrossOrgRemovalLeavesAccess` | app/api/admin/platform_members.py:247-265 | One where a cross-org removal leaves an active admin row |
| `Witnesses.LiveMemberListedAsRemoved` | app/services/admin/clerk_admin.py:139-153 | An org of 501 members whose 501st, removed before and back, is listed as removed |
| `AdminRuns.RunKeepsGood` | app/core/admin_dependencies.py:101-118 | The invariant holds at the end of every legal run, and no admin row disappears or changes org |
| `AdminRuns.ReachableIsGood` | app/core/admin_dependencies.py:101-118 | So it holds in every state that a database without organisations and admins reaches |
| `AdminRuns.ProvisionOnRow` | app/core/admin_dependencies.py:66-118 | Exactly when and how provisioning writes a given row |
| `AdminRuns.HandlerOnRow` | app/repo/AdminUserRepo.py:40-84 | Exactly when and how a committed handler writes a given row |
| `AdminRuns.DeactivationFollowsDirectory` | app/api/admin/platform_members.py:169-180 | A deactivating handler has first taken the admin role away in the directory |
| `AdminRuns.NoFalseRevocation` | app/core/admin_dependencies.py:74-87 | Over runs of any length, a stamped active row stays active while the directory keeps its user an admin and tokens are used within `grace` of minting |
| `AdminRuns.PromotionProtects` | app/repo/AdminUserRepo.py:54-84 | A promotion that finds a row, own-org or cross-org, establishes that protection |
| `AdminRuns.ReinviteProtects` | app/core/admin_dependencies.py:92-118 | So does the first call of a re-invited admin, whose provisioning reactivates the inactive row |
| `AdminRuns.PromotionNotRevoked` | app/core/admin_dependencies.py:74-87 | End to end: such a promotion is never undone by the sync in any later run |
| `AdminRuns.ReinviteNotRevoked` | app/core/admin_dependencies.py:92-118 | Nor is the reactivation of a re-invited admin |
| `AdminRuns.PromotionGraceExactly` | app/repo/AdminUserRepo.py:59-70 | After an own-org promotion a stale token leaves the row active if and only if the row existed before and the window is open |
| `AdminRuns.LateStaleTokenRevokes` | app/core/admin_dependencies.py:82-86 | One tick beyond the bound on token age a stale token revokes |
| `AdminRuns.RunFades` | app/core/admin_dependencies.py:82-87 | Without grants, an inactive row never comes back and calls inside the window never move `updated_at` |
| `AdminRuns.BoundedRevocation` | app/core/admin_dependencies.py:64-90 | Without grants, the first call at or after stamp + grace (any call without a stamp) leaves the row inactive for the rest of the run |
| `AdminRuns.LastAdminLostOnlyInSync` | app/api/admin/platform_members.py:247-265 | With directory roles org:admin and org:member only, an org that had an active admin and has none lost it in a provisioning sync, over runs of any length |
| `RoleSync.RoleChangeSyncsTarget` | app/api/admin/members.py:134-137 | After a committed own-org role change directory, users table and admin table agree on the target, whatever they held before |
| `RoleSync.RoleChangeKeepsSync` | app/api/admin/members.py:134-218 | A committed own-org role change keeps the agreement for every user |
| `RoleSync.CrossOrgChangeSyncsExactly` | app/api/admin/platform_members.py:169-190 | After a cross-org role change the stores agree on the target if and only if it demoted, an admin row existed, or the org has no such user row |
| `RoleSync.RemovalLeavesNoAccess` | app/api/admin/members.py:64-76 | Own-org removal leaves no membership, no active admin row and an inactive user row |
| `RoleSync.CrossOrgRemovalLeavesAccessExactly` | app/api/admin/platform_members.py:247-265 | Cross-org removal leaves an active admin row if and only if there was one and the directory's role was not org:admin |
| `PooledScopes.ScopeIsOwnLastSet` | app/core/dependencies.py:111-126 | However clients interleave on shared backends, the scope in force is the one the client set last in its own transaction, and unset at its start |
| `PooledScopes.AccessesStayInOwnScope` | app/core/dependencies.py:127-136 | Every row read or written belongs to the org the client set last in that transaction |
| `PooledScopes.OtherOrgsUnchanged` | app/core/admin_dependencies.py:145-158 | Committed rows of an org change only by a transaction that had set that org, and no row changes org |
| `PooledScopes.CommitPublishesExactly` | app/core/dependencies.py:104-109 | A commit publishes for each key the last write that the policy let through in that transaction, read off the history, and nothing else; a rollback publishes nothing |
| `PooledScopes.AccessesTakeExactly` | app/core/dependencies.py:122-126 | A read returns the newest row exactly when it is of the org last set; a write takes exactly when its row is of that org and the key is free or of it, and is then what the client reads |
| `PooledScopes.CommittedWriteIsKept` | app/core/dependencies.py:127-136 | A client that sets its org, writes and commits has its row committed and leaves the backend as it was |
| `PooledScopes.SessionLevelSettingLeaks` | app/core/dependencies.py:115-120 | With the session-level form a client that set nothing reads the previous client's tenant |
| `JitRace.RunKeepsInv` | app/core/dependencies.py:60-96 | In every interleaving of first requests there is at most one row per organisation and per user, and keys agree |
| `JitRace.QuiescentStart` | app/core/dependencies.py:60-62 | Any database with unique rows and agreeing keys, so also an empty one, is a start of the machine |
| `JitRace.ProvisionedRequestSeesItself` | app/core/dependencies.py:63-96 | The re-select never comes back empty; a provisioned request sees its own row exactly when its user has no row in another org, with the organisation's key |
| `JitRace.CommitLetsItsUserIn` | app/core/dependencies.py:49-58 | In every interleaving, a request that commits leaves its user with a row that is active if it is of the request's org, so a removed member who is back is let in, and leaves all other users' rows as they were |
| `JitRace.LoneRequestCreates` | app/core/dependencies.py:60-96 | An undisturbed first request creates the organisation with the next key and an active user with that key |
| `JitRace.LoneRequestReactivates` | app/core/dependencies.py:49-58 | An undisturbed request of a known user commits with that row active and nothing added |
| `JitRace.CommittedRequestsAgree` | app/repo/UserRepo.py:25-45 | Every committed request, whatever raced with it, shares one active row and one organisation key for good |
| `Ingest.ExactlyOnce` | app/jobs/tasks/ingest_data_source.py:46-87 | After any interleaving of deliveries, crashes and completions a row has one completion entry if terminal and none otherwise, and it tells the final verdict |
| `Ingest.CompletedExactlyOnce` | app/api/uploads.py:133-170 | After any interleaving and retried completions each row has exactly one upload-completed entry, telling its columns, and an upload that never committed has none |
| `Ingest.EveryRowHasItsJob` | app/api/uploads.py:133-154 | Over every run, a committed row's org, storage key and declared hash are those of a job queued for it |
| `Ingest.CompletionStoresRequest` | app/api/uploads.py:133-170 | A fresh upload's completion stores the request's org, deal, key and hash in the row, its audit entry and its job |
| `Ingest.AuditRowFitsScope` | app/jobs/tasks/ingest_data_source.py:73-87 | In every reachable state the audit row a worker queues belongs to the scope's org |
| `Ingest.TerminalIsFinal` | alembic/versions/d6d2fe8f27ae_data_source.py:119-134 | No step changes a terminal status or fingerprint, or a row's identity columns |
| `Ingest.StatusLeavesPendingOnce` | alembic/versions/d6d2fe8f27ae_data_source.py:119-134 | Over any run a row's status changes exactly once if the row ends terminal and did not start so, and never otherwise |
| `Ingest.InvisibleRowChangesNothing` | app/jobs/tasks/ingest_data_source.py:49-55 | A delivery whose row is not visible ends and changes nothing |
| `Ingest.PendingDelivery` | app/jobs/tasks/ingest_data_source.py:57-87 | What an undisturbed delivery of a visible pending row leaves |
| `Ingest.WithoutTriggerTwice` | app/jobs/tasks/ingest_data_source.py:57-63 | The read-time check alone does not arbitrate: without the trigger two workers commit two entries and the second verdict wins |
| `IngestJob.CreatePresignedUrl` | app/api/uploads.py:79-89 | Refuses exactly when the deal has a non-mismatch row with that declared hash or fingerprint |
| `IngestJob.CompleteUpload` | app/api/uploads.py:124-170 | A fresh id gets a pending row and an audit row with the request's own columns; the job is queued even when the insert then fails on the upload id; a missing object changes nothing |
| `IngestJob.IngestDataSource` | app/jobs/tasks/ingest_data_source.py:29-87 | An undisturbed delivery equals the protocol's five steps |
| `UploadVerdicts.VerdictsAreFaithful` | app/jobs/tasks/ingest_data_source.py:65-73 | With one body per upload id: verified means equal to the declared hash, mismatch means another hash, quarantined means none |
| `UploadVerdicts.VerdictsAreFaithfulExactly` | app/jobs/tasks/ingest_data_source.py:65-73 | Over every run, all rows tell the truth about their declared hash if and only if each committed verdict's job declares the row's hash, or the object was too large or hashes to neither |
| `UploadVerdicts.DeliveryFaithfulExactly` | app/jobs/tasks/ingest_data_source.py:65-73 | The same if-and-only-if for one undisturbed delivery |
| `UploadVerdicts.OtherBodyMisleads` | app/jobs/tasks/ingest_data_source.py:65-73 | A job with another hash than its pending row's can mark the row verified with a fingerprint that is not the declared hash |
| `UploadVerdicts.SecondBodyQueuesItsJob` | app/api/uploads.py:133-154 | The empty system reaches that state: one upload id completed twice with different hashes |
| `UploadVerdicts.FingerprintHalfIsRedundant` | app/repo/DataSourceRepo.py:31-37 | After every run whose verdicts are truthful, so with one body per id, the fingerprint disjunct finds nothing that the declared hash does not |
| `UploadVerdicts.SequentialUploadsAreDistinct` | app/api/uploads.py:82-89 | If each accepted presign of a deal is completed before the next, live rows of the deal have distinct declared hashes, retried completions of committed uploads included |
| `UploadVerdicts.SequentialClientsStoreOnce` | app/api/uploads.py:82-89 | So it is for every such client of the empty system |
| `UploadVerdicts.CommitKeepsDistinctExactly` | app/api/uploads.py:133-143 | A new upload keeps the deal's live declared hashes distinct if and only if no live row of the deal declares its hash when it commits |
| `UploadVerdicts.UploadsAreDistinctExactly` | app/api/uploads.py:79-89 | Over every run with truthful verdicts a deal never holds two live uploads of one declared hash if and only if each upload would still pass the whole presign check when it commits |
| `UploadVerdicts.OpenPresignsDuplicate` | app/api/uploads.py:79-102 | Two presigns open at once are both accepted and leave two live rows with one declared hash |
| `Fusion.ReciprocalRankFusion` | app/services/retrieval.py:92-99 | Lists every id of the non-zero legs once with its summed score, strictly by score and then id; fails exactly when a denominator is zero |
| `Fusion.AddLeg` | app/services/retrieval.py:97-98 | One leg adds one term for each rank at which it lists an id |
| `Fusion.SortedItems` | app/services/retrieval.py:99 | The sorted items of a dictionary, whatever order it iterates in |
| `FusionTheorems.FusionIsUnique` | app/services/retrieval.py:88-89 | The specification has one answer |
| `FusionTheorems.LegOrderIsIrrelevant` | app/services/retrieval.py:93 | The answer does not depend on the order of the legs |
| `FusionTheorems.WeightScaleIsIrrelevant` | app/services/retrieval.py:52-59 | Scaling all weights by c > 0 scales the scores and keeps the order |
| `FusionTheorems.TruncationError` | app/services/retrieval.py:135-174 | Cutting the legs to L lowers a score by at least 0 and at most (sum of weights)/(k + L + 1) |
| `FusionTheorems.TruncationKeepsClearOrder` | app/services/retrieval.py:135-174 | Pairs further apart than that keep their order in the full fusion |
| `FusionTheorems.ClearHitOutranksTheCutOff` | app/services/retrieval.py:130-133 | A hit above the bound outranks every chunk that all legs cut off |
| `FusionTheorems.BothLegsFirst` | app/services/retrieval.py:44-48 | With equal positive weights and legs of at most k + 1 ids, a chunk of both legs precedes every chunk of one |
| `FusionTheorems.OneLongerAndTheyTie` | app/services/retrieval.py:83-85 | At k + 2 ids there are legs where it does not |
| `HybridSearch.Search` | app/services/retrieval.py:115-209 | The hits are the visible ones of the first top_k fused ids, in rank order, though rows come back in any order and the tables may have changed in between; each failure exactly where the code raises |
| `HybridSearch.FetchK` | app/services/retrieval.py:135 | leg_k if given, else the greater of 20 and four times top_k |
| `HybridSearch.UpTo` | app/services/retrieval.py:174 | The first top_k, or all but the last -top_k |
| `SearchMeaning.SearchMeans` | app/services/retrieval.py:170-209 | Without its algorithm: one ranking of what the legs fetched, by dense weight over k plus dense place and sparse weight over k plus sparse place; the hits are the org's chunks among its first top_k, in its order, with their worth and all their columns |
| `SearchMeaning.SearchFailsExactly` | app/services/retrieval.py:102-140 | An empty embedding and a negative leg_k are the only failures for k of zero or more |
| `SearchMeaning.SearchDividesExactly` | app/services/retrieval.py:97-98 | For any k, the division by zero happens exactly when -k is a place in a leg that is not weighted zero |
| `SearchMeaning.OneLegSearch` | app/services/retrieval.py:52-59 | With one weight zero the hits are the other leg's, in its own order |
| `SearchMeaning.HeavierLegFirst` | app/services/retrieval.py:52-59 | Of two chunks at one place in one leg each, the chunk of the heavier leg comes first |
| `HybridSearch.HydrateInOrder` | app/services/retrieval.py:178-209 | Reading the winners in any order and sorting by rank yields the visible subsequence of the ranking |
| `HybridSearch.AnswerIsDetermined` | app/services/retrieval.py:208-209 | Two answers to one search are equal |
| `HybridSearch.UnchangedTablesHydrateAll` | app/services/retrieval.py:176-209 | With unchanged tables the hits are exactly the first top_k ids, all of the document asked for |
| `HybridSearch.DefaultsPutBothLegsFirst` | app/services/retrieval.py:135 | By default and for top_k up to 15 no hit of one leg comes before a hit of both |
| `HybridSearch.SixteenIsTooMany` | app/services/retrieval.py:135 | For every top_k of 16 and more there are rankings whose first hit is a chunk of one leg and whose second is one of both |
| `HybridSearch.OrgScopedSearch` | app/services/memory_scope.py:36-88 | Refuses, before any retrieval query, exactly when the scope is unset, empty or another org's; otherwise every hit is a row of the declared org |
| `ClaimContract.ClaimSchemaSplits` | contracts/claims.schema.json:425-604 | A claim is valid exactly when it meets the unconditional part and each of the five rules |
| `ClaimMeaning.ContractExactly` | contracts/claims.schema.json:6-604 | In plain terms, exactly which values the contract accepts: the members, their types and lists, and the five conditional rules |
| `ClaimMeaning.LocationExactly` | contracts/claims.schema.json:126-314 | Exactly which locations are accepted; the three kinds exclude each other |
| `ClaimMeaning.ValueMeans` | contracts/claims.schema.json:66-125 | Exactly which value objects are accepted |
| `ClaimMeaning.ScaleRuleMeans` | contracts/claims.schema.json:514-569 | A magnitude needs a numeric multiplier and a source, both ways |
| `ClaimMeaning.StatusRefusesExactly` | app/models/claim.py:172 | For every row, exactly which status the constraint refuses |
| `ClaimMeaning.KindsRefuseExactly` | app/models/claim.py:178-196 | Exactly which location kind, claim kind and period kind are refused |
| `ClaimMeaning.MethodRefusesExactly` | app/models/claim.py:173-177 | Exactly which verification method is refused |
| `ClaimMeaning.ClassRefusesExactly` | app/models/claim.py:183-186 | Exactly which assertion class is refused |
| `ClaimMeaning.QualitativeRefusesExactly` | app/models/claim.py:187-192 | Exactly a qualitative row without a class is refused |
| `ClaimMeaning.ConditionsRefuseExactly` | app/models/claim.py:197-230 | Exactly which rows with status and kind the four conditional constraints refuse |
| `ClaimStorage.RowFromClaim` | scripts/ingest_claims.py:46-79 | Every column holds what it should, location columns through the loop; raises exactly when a key is missing |
| `ClaimMeaning.RowHoldsClaim` | scripts/ingest_claims.py:49-75 | The row of a valid claim holds its org, run, entity, attribute, value and status, and its flags unless they are absent or empty |
| `ClaimMeaning.OptionalColumns` | scripts/ingest_claims.py:59-73 | Period, method, section, claim kind and class are stored as given, NULL when absent |
| `ClaimMeaning.CitationColumns` | scripts/ingest_claims.py:74-79 | The eight columns of the citation are the location's own members, NULL when absent |
| `ClaimAgreement.LocationMeans` | contracts/claims.schema.json:126-314 | A valid location is one of three kinds with its locator, without the others' columns and without nulls |
| `ClaimAgreement.FoundRuleMeans` | contracts/claims.schema.json:426-461 | What the found-needs-span rule says of a well-formed claim, both ways |
| `ClaimAgreement.MissingRuleMeans` | contracts/claims.schema.json:462-484 | What the missing-has-no-span rule says, both ways |
| `ClaimAgreement.CheckedRuleMeans` | contracts/claims.schema.json:485-513 | What the checked-needs-method rule says, both ways |
| `ClaimAgreement.FoundConstraintMirrorsRule` | app/models/claim.py:205-214 | For claims that meet the unconditional part the CHECK is TRUE exactly when the contract's rule holds, else FALSE, never unknown |
| `ClaimAgreement.MissingConstraintMirrorsRule` | app/models/claim.py:215-224 | The same for the missing-has-no-span CHECK |
| `ClaimAgreement.CheckedConstraintMirrorsRule` | app/models/claim.py:225-230 | The same for the checked-requires-method CHECK |
| `ClaimAgreement.QualitativeConstraintIsHalfTheRule` | app/models/claim.py:187-192 | The qualitative rule is the CHECK and, besides, a text value without magnitude |
| `ClaimAgreement.ContractImpliesStorage` | app/models/claim.py:171-231 | Every claim valid under the contract makes every CHECK of its row TRUE |
| `ClaimAgreement.CitationReadsBack` | scripts/ingest_claims.py:41-79 | Locator and span read from the row are the location's, nothing lost and nothing made up |
| `ClaimAgreement.FirstInvalid` | scripts/ingest_claims.py:82-94 | Reports the first claim that violates the contract, or none when all are valid |
| `ClaimAgreement.IngestClaims` | scripts/ingest_claims.py:97-137 | All or nothing: rows for every claim, none refusable by a constraint, each still citing what its claim cites |
| `ObjectKeys.Sanitize` | app/services/uploads/spaces.py:29-32 | Length-preserving, result characters all safe, safe characters kept |
| `ObjectKeys.SafeExactly` | app/services/uploads/spaces.py:32 | By code point, exactly which characters are kept |
| `ObjectKeys.SanitizeIsIdempotent` | app/services/uploads/spaces.py:66 | Sanitizing twice is sanitizing once |
| `ObjectKeys.KeyRoundTrip` | app/services/uploads/spaces.py:58-67 | A parser recovers sanitized name, org, deal, upload and any filename for slash- and hyphen-free org ids |
| `ObjectKeys.KeysCollideExactly` | app/services/uploads/spaces.py:61-67 | Two uploads share a key exactly when heads, ids and filenames agree |
| `ObjectKeys.KeysDiffer` | app/services/uploads/spaces.py:61-67 | Distinct orgs, deals, uploads or filenames never share a key |
| `ObjectKeys.HyphenatedOrgsCollide` | app/services/uploads/spaces.py:66-67 | With hyphens in org ids two orgs can |
| `Streams.Body.Read` | app/services/uploads/spaces.py:108-113 | A streaming read: any non-empty size up to the request, empty only at the end |
| `Streams.StreamAndHash` | app/services/uploads/spaces.py:96-120 | The digest of all bytes exactly when they fit the limit; otherwise stops within one chunk of it |
| `Embedding.Sane` | app/services/embedding.py:65-77 | Accepts exactly the finite, non-zero vectors of the configured dimension, unchanged |
| `Embedding.Checked` | app/services/embedding.py:139-163 | Accepts exactly a 200 answer with one entry for each text |
| `Embedding.ByIndexIsStableSort` | app/services/embedding.py:132-134 | Ascending, the same entries, equal indices in their order |
| `Embedding.SortedPermutation` | app/services/embedding.py:132-134 | When indices are a permutation, position j holds index j |
| `Embedding.Posts` | app/services/embedding.py:127 | The number of requests is the least number of 128-batches that holds the inputs |
| `Embedding.Embed` | app/services/embedding.py:122-137 | Succeeds with one vector for each input in ceil(n/128) requests, or stops at the first batch that is refused |
| `Embedding.EmbedAligns` | app/services/embedding.py:122-137 | Output i is the vector answered for input i, in whatever order batches are answered |

## Left out

- Clerk, HTTP, Spaces and Voyage: replaced by the directory map, by flags that say whether a call succeeds, and by arbitrary answers. The cross-org handlers may miss any membership on the page they fetch; the list is exact about its 500. HTTP status codes are reduced to the kind of reply.
- Token cryptography: a token is a verified (user, org, role, mint time) with a non-empty org.
- The ORM's identity map: each select reads the current table instead of a cached object.
- The clock is read once for provisioning and once for the handler's writes (the latter later), not once for each statement.
- Simultaneous admin mutations: the admin requests of a run are served one after the other; interleaving is modelled for pooling, first requests and ingest.
- Organisation names and types, profile columns, the uniqueness of e-mail addresses, and audit columns other than key, actor and the payload fields shown.
- Other admin routes (invitations, organisations), the read-only endpoints and their response shapes: they add no state to the ones modelled, or only an audit row.
- Tokens' roles in the JIT race and the roles it writes; reactivation there takes effect at the commit.
- File type and size checks before presigning, presigned-URL expiry, and the client's PUT: a hash job sees an arbitrary object.
- SHA-256: in `Ingest` a value compared for equality, in `Streams` any digest whose incremental form agrees on concatenation.
- Float rounding: fusion scores and weights are real numbers; not-a-number and infinite weights are not modelled.
- How PostgreSQL ranks a leg (HNSW, ts_rank_cd) and refuses a query vector of a wrong dimension: a leg is any ranking without repeats of visible chunks.
- Column widths, integer ranges and UUID syntax of the claims table, and JSON null against SQL NULL, which differ only for claims the contract rejects.
- The organisation row, the role switch and the dry-run rollback around the claim inserts.
- Member names in `ClaimNames` are an enumeration with a catch-all instead of strings; the contract mentions no other.
- ContractImpliesStorage: the scale rule and the value object have no CHECK, so the theorem says nothing of them; `table_id`, `row`, `col`, `named_range` and the document fields of a location have no column and are not read back.
- KeyRoundTrip: org ids with a slash are outside it; nothing in the code rules them out.
- Dashboards, memo summaries, pipeline steps, deployment and the rest of the migration chain.
