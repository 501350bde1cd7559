# Control-plane verification

This project models the state the control server of the reality-console keeps in its database and proves what
every run of its operations keeps. Each public operation of `control-server/src/db.rs` runs in one immediate
transaction under one lock, so it is modelled as one atomic step: it commits all of its changes or none.

For each group of tables there is

- a value model: the tables as maps and sequences, and every operation as a step from tables to an outcome;
- the invariant, its preservation by every step, and the theorems that follow for every state reachable from an
  empty database, whatever the order of the steps;
- a class with one field per table, whose methods change the fields statement by statement, loops included, and
  are proved to have exactly the effect of the step, or none.

| area | modules |
|---|---|
| canonical order, desired-state documents, agent versions | `Ordering`, `DesiredState`, `AgentVersion` |
| revision log, result journal, accounts, assignments, credentials, canaries, rollback | `Plane`, `RevisionLog`, `Credentials`, `Publication`, `Accounts`, `Nodes`, `Operator`, `Rollback`, `ControlRuns`, `ControlTheorems`, `NewestRevisions`, `AccountSides` |
| the same tables changed in place | `DocumentRows`, `ReissueLoops`, `ControlDatabase` |
| activations, logins, refresh sessions, access tokens | `Sessions`, `SessionChains`, `SessionTheorems`, `SessionStore` |
| heartbeats, endpoint candidates, probe claims, verifications | `Endpoints`, `Heartbeats`, `Evidence`, `EndpointTheorems`, `EndpointRegistry` |
| telemetry ingestion, roll-ups, retention | `Telemetry`, `Rollups`, `TelemetryTheorems`, `TelemetryStore` |
| relay grants and their outbox | `Relay`, `Outbox`, `RelayTheorems`, `RelayLedger` |
| signed node requests | `Nonces` |
| all groups together: shared rows, account transactions, heartbeats, audit rows | `Controllers`, `ControllerTheorems`, `AuditTrail` |
| high-water marks, backup verification and restore | `HighWater`, `Backups` |

`dafny verify dfyconfig.toml` checks everything.

## Reading the model

- Random identifiers are numbers handed to the step that stores them; a collision is the UNIQUE or PRIMARY KEY
  violation that aborts the transaction. CHECK and FOREIGN KEY constraints are guards that abort in the same way.
- Hashes, signatures and derived secrets are injective terms. A refresh request consists of its credential only, so
  its digest is the credential.
- The clock, the outcome of password and signature checks, probe results and the row a claim query picks first are
  inputs.
- Revision cursors use 0 for NULL. Assignments are keyed by user and node, as their UNIQUE constraint allows.
- Each group of tables carries the columns of other groups that it reads: account status, node row, revisions,
  canaries, assignments. `Controllers` runs all groups together and keeps one copy of each such column: an account
  operation changes publication and session tables in one transaction, a heartbeat the node row and the endpoint tables.
- A serialized document is represented by its length: every identifier has 36 characters, so only the configuration,
  the revision number and the number of users matter. The size of a backup manifest is an input.
- Times are whole seconds, as stored.
- The telemetry model carries the accepted events and the retention passes beside the tables; no step reads them.
- Audit rows are counted, not written. Rows of rejections and of operations outside the model are steps of their own.

## What the proofs found

- Refreshing in the last fifteen minutes of a live session aborts on the CHECK that the session must outlive the new
  access token. `SessionTheorems.RefreshSucceedsExactly` gives the exact condition.
- The idempotency-key conflict of a refresh and the duplicate-user refusal of compilation cannot happen.
- A withdrawn endpoint cannot be reported again while another current candidate of the node holds its address, although
  the same report would withdraw that candidate: candidates are refreshed before missing ones are withdrawn.
  `EndpointTheorems.TakeOverExample` is a run, `ControllerTheorems.HeartbeatAcceptedExactly` the exact condition.
- A document never holds the 10,000 users its protocol allows: the text column of a revision is full at 6,165 users at
  the latest, and a publication beyond that aborts. `Publication.PublishAllCommits` gives the exact condition.
- A roll-up bucket that retention dropped comes back with the late part only. `TelemetryTheorems.LateRunLoses` is a
  family of runs, `TelemetryTheorems.BucketsAreExact` the exact condition.
- The acknowledged relay generation can go back, exactly to a generation that was still pending.
  `RelayTheorems.OlderComesBackExactlyIfPending` states it.
- A restore can pass the rollback check although reports were received since the backup: received and validated results
  and heartbeats move no mark. `Backups.RestoreLosesOnlyProgress` shows that nothing of accounts, credentials, revisions
  and sessions can be lost.
- A signed request can be accepted twice only after a request accepted in between came after its window, which needs a
  clock that goes back. `Nonces.AcceptedAgainExactly` gives the exact condition.
- The cap of 300 seconds on the relay retry delay is never reached, since the doubling stops at 256.

## Model

| member | source | states |
|---|---|---|
| `Ordering.SortedArrangementIsUnique` | control-server/src/desired.rs:47-54 | two sorted arrangements of the same elements under a total order are the same sequence; this is what makes comparing sorted user lists meaningful |
| `Ordering.SortVector` | control-server/src/desired.rs:47-54 | the insertion loop returns the sorted permutation of its input |
| `DesiredState.DesiredStateDraft.Canonicalize` | control-server/src/desired.rs:46-55 | sorts the draft's users by user then credential and its server names, in place |
| `DesiredState.CanonicalUsersOfRows` | control-server/src/desired.rs:47-54 | whatever order the rows of a user set arrive in, the canonical list is the same |
| `DesiredState.CanonicalUsersInjective` | control-server/src/db.rs:5226-5249 | two canonical lists are equal exactly when the user sets are |
| `DesiredState.CanonicalConfigurationValid` | control-server/src/desired.rs:74-94 | sorting the server names does not change whether a configuration is acceptable |
| `DesiredState.VerifyAcceptsExactlyPublishedRows` | control-server/src/desired.rs:125-161 | a stored row verifies to an envelope if and only if every column is the one publication of that envelope stores, the document is acceptable and the key signed it |
| `DesiredState.BuildThenVerify` | control-server/src/desired.rs:65-108 | what was built verifies to itself and carries a sorted permutation of the users |
| `AgentVersion.AtLeastIsAnOrder` | control-server/src/db.rs:5092-5119 | the padded numeric version comparison is a total preorder |
| `ControlTheorems.StatusesFollowAppliedRevision` | control-server/src/db.rs:6024-6113 | in every reachable state an unrevoked credential is in the snapshot of its node's applied revision exactly when it is not pending |
| `ControlTheorems.OneLiveCredentialPerAssignment` | control-server/src/db.rs:9281-9697 | in every reachable state an assignment has at most one pending-or-active credential, of its highest version, and then the assignment is enabled |
| `ControlTheorems.CompilationNeverRefuses` | control-server/src/db.rs:5589-5645 | the duplicate-user refusal of compilation cannot happen in a reachable state |
| `ControlTheorems.HistoryOnlyGrows` | control-server/src/db.rs:5418-6357 | between any two points of a run statuses never move back, and revisions, journal records, rollback answers and canary generations are never lost or rewritten |
| `ControlTheorems.EnabledAssignmentsAreServed` | control-server/src/db.rs:5719-5749 | in every reachable state an enabled assignment points at an active node that already has a desired revision |
| `ControlTheorems.ProgressAgreesWithJournal` | control-server/src/db.rs:6303-6357 | applied <= validated <= received <= reported <= desired <= last; received and validated are the journal maxima, applied has an applied record, desired is the newest revision targeted at the node, revisions are gapless |
| `ControlTheorems.AccountOperationsPublishPolicy` | control-server/src/db.rs:5678-5704 | a committed account operation republishes every node whose user set it changes; each new revision snapshots the set at commit under the node's previous configuration and canary; all other sets are unchanged |
| `ControlTheorems.StoredDocumentsFit` | control-server/src/db.rs:393-394 | in every reachable state every stored document fits its column, so it lists at most 6,165 users, far below the protocol limit of 10,000 |
| `ControlTheorems.RotationFailsOnlyForCapacity` | control-server/src/db.rs:8490-8514 | with fresh identifiers a rotation commits exactly when the revision counter, the document limits and the 1,048,576-character column, at the revision number each node will get, leave room |
| `ControlTheorems.StatusChangeFailsOnlyForCapacity` | control-server/src/db.rs:9519-9583 | with fresh identifiers an admitted status change commits exactly when there is room in the same sense |
| `ControlTheorems.ReplacementNeedsBaselines` | control-server/src/db.rs:9205-9279 | an admitted node replacement commits exactly when every node to enable has a baseline revision and there is room in the same sense |
| `ControlTheorems.ReplacementMeaning` | control-server/src/db.rs:9281-9374 | afterwards the account is enabled on exactly the requested nodes, each newly enabled node serves it with the new credential only, and no other node serves it |
| `ControlTheorems.StatusMeaning` | control-server/src/db.rs:9600-9697 | a disabled or deleted account is served nowhere; a reactivated one is served on each enabled node by its new credential only; deletion leaves no open assignment |
| `ControlTheorems.RotationMeaning` | control-server/src/db.rs:8490-8514 | every older credential of the enabled assignments is revoked, a new pending one exists on each, and it is served exactly when the account is active |
| `ControlTheorems.LifecycleMeaning` | control-server/src/db.rs:9730-9948 | disabling or revoking a node empties its user set and closes its assignments, leaves other nodes' user sets alone, and a revoked node stays revoked |
| `ControlTheorems.ReportMeaning` | control-server/src/db.rs:6024-6113 | what a recorded report does to each credential of the node, by its status and membership in the applied snapshot, and to the applied cursor |
| `ControlTheorems.RepeatedReportChangesNothing` | control-server/src/db.rs:5955-5975 | once recorded, the same report is accepted again and changes nothing |
| `ControlTheorems.EnrollmentMeaning` | control-server/src/db.rs:10142-10284 | without a configuration a new node is pending with no revision; with one it is active on a new revision without members |
| `ControlTheorems.ShownAppliedIsActive` | control-server/src/db.rs:9124-9166 | an enabled assignment of an active account is shown as applied exactly when it has an active credential |
| `ControlTheorems.RollbackAnswersForever` | control-server/src/db.rs:5132-5179 | an answered rollback key gives the same answer for the same targets in any order after any further run, publishing nothing |
| `Rollback.RollbackEffect` | control-server/src/db.rs:4896-5009 | the cohort gets consecutive new revisions in node order, each with its source's configuration and today's live users; each source was validated, applied and suits the agent, each current revision had failed |
| `Rollback.RollbackReplays` | control-server/src/db.rs:5132-5179 | under a used key the recorded answer is given exactly for the same target set and reason, else a conflict |
| `Rollback.RollbackKeepsInv` | control-server/src/db.rs:4896-5009 | a committed or replayed rollback keeps every invariant |
| `Operator.ReconcileCorrect` | control-server/src/db.rs:5215-5288 | reconciliation reports unchanged exactly when the newest revision is the live policy plus the current canary and has not failed; otherwise it publishes one revision that is |
| `Operator.ReconcileIdempotent` | control-server/src/db.rs:5215-5288 | a second reconciliation right after any reconciliation publishes nothing |
| `Operator.RotateCanaryKeeps` | control-server/src/db.rs:5290-5372 | rotation makes the next generation the only active canary, retires the old one and keeps every invariant |
| `Publication.PublishAllCommits` | control-server/src/db.rs:5678-5704 | a batch over ready nodes commits exactly when the revision counter, the document limits and the 1,048,576-character column, at the revision number each node will get, leave room; it fails for no other reason |
| `Publication.PublishAllEffect` | control-server/src/db.rs:5678-5704 | a committed batch adds one revision per node, consecutively, each with the live policy and the node's previous configuration, and touches nothing else |
| `Publication.PublishKeepsInv` | control-server/src/db.rs:5418-5522 | one publication keeps every invariant |
| `Accounts.AccountChangePublishes` | control-server/src/db.rs:5678-5704 | an account change followed by republication of its nodes publishes every changed user set |
| `Accounts.RotateAccountChanges` | control-server/src/db.rs:7593-7649 | a committed rotation is an account change on the enabled nodes that keeps every invariant |
| `Accounts.SetStatusChanges` | control-server/src/db.rs:9519-9583 | a committed status change is an account change on the enabled nodes that keeps every invariant |
| `Accounts.ReplaceNodesChanges` | control-server/src/db.rs:9205-9279 | a committed replacement is an account change on the enabled and disabled nodes that keeps every invariant |
| `Nodes.RecordKeepsInv` | control-server/src/db.rs:5955-6022 | recording a report keeps every invariant and moves no credential backwards |
| `Nodes.TransitionKeepsInv` | control-server/src/db.rs:9730-9826 | a node lifecycle action keeps every invariant |
| `Nodes.EnrollKeepsInv` | control-server/src/db.rs:10142-10284 | enrollment keeps every invariant |
| `RevisionLog.RecordKeepsLog` | control-server/src/db.rs:6303-6357 | recording a report keeps the log gapless, the journal sound and the cursors equal to the journal maxima |
| `RevisionLog.PublishKeepsLog` | control-server/src/db.rs:5418-5522 | a publication keeps the log gapless and the cursors in agreement |
| `Credentials.CompileNeverRefuses` | control-server/src/db.rs:5620-5632 | distinct versions and live-is-newest imply that compilation finds no user twice |
| `ControlRuns.EveryStepKeeps` | control-server/src/db.rs:4838-6357 | every committed or aborted step keeps every invariant and only extends the history |
| `ControlRuns.Reachable` | control-server/src/db.rs:4838-6357 | every state reachable from the empty database satisfies every invariant |
| `DocumentRows.RowsAcceptable` | control-server/src/desired.rs:74-94 | the sorted row list passes document validation exactly when no member shares a user or credential with the canary and the size fits |
| `DocumentRows.CurrentUsers` | control-server/src/db.rs:5225-5249 | a stored list equals the sorted rows exactly when the underlying sets are equal and the canary is no member |
| `ReissueLoops.ReissueNext` | control-server/src/db.rs:8490-8514 | revoking and issuing one more assignment reaches the table of the set-at-a-time step |
| `ControlDatabase.ControlDatabase.CompileDesiredUsers` | control-server/src/db.rs:5589-5645 | the row loop refuses exactly when a user has two rows and otherwise returns each member once |
| `ControlDatabase.ControlDatabase.PublishCompiledDesiredState` | control-server/src/db.rs:5418-5522 | the statements of one publication have exactly the effect of the publication step, or fail when it fails |
| `ControlDatabase.ControlDatabase.PublishAccountRevisions` | control-server/src/db.rs:5678-5704 | the loop over affected nodes equals the batch step |
| `ControlDatabase.ControlDatabase.IssueAssignmentCredential` | control-server/src/db.rs:9440-9477 | inserts a pending credential one version above the assignment's highest, or reports the collision |
| `ControlDatabase.ControlDatabase.ReissueEnabledAssignments` | control-server/src/db.rs:8490-8514 | the loop revokes and reissues every enabled assignment, or fails on a colliding identifier |
| `ControlDatabase.ControlDatabase.EnableRequestedAssignments` | control-server/src/db.rs:9281-9350 | the loop enables exactly the missing and disabled requested assignments, or fails with the error of the lowest node that has a deleted assignment or a colliding identifier |
| `ControlDatabase.ControlDatabase.DisableOmittedAssignments` | control-server/src/db.rs:9352-9374 | the loop disables exactly the enabled assignments left out of the request and retires their credentials |
| `ControlDatabase.ControlDatabase.ValidateAssignmentNodes` | control-server/src/db.rs:9416-9438 | accepts exactly when every requested node is active, else the lowest offending node decides the error |
| `ControlDatabase.ControlDatabase.ReplaceAccountNodes` | control-server/src/db.rs:9205-9279 | the transaction equals the replacement step, restores everything on failure and keeps the invariant |
| `ControlDatabase.ControlDatabase.SetAccountStatus` | control-server/src/db.rs:9519-9583 | the transaction equals the status step, restores everything on failure and keeps the invariant |
| `ControlDatabase.ControlDatabase.RotateAccountCredentials` | control-server/src/db.rs:7593-7649 | the transaction equals the rotation step, restores everything on failure and keeps the invariant |
| `ControlDatabase.ControlDatabase.EnrollNode` | control-server/src/db.rs:10142-10284 | the transaction equals the enrollment step, restores everything on failure and keeps the invariant |
| `ControlDatabase.ControlDatabase.TransitionNode` | control-server/src/db.rs:9730-9826 | the transaction equals the lifecycle step and keeps the invariant |
| `ControlDatabase.ControlDatabase.UpdateProgressCache` | control-server/src/db.rs:6303-6357 | the conditional updates together move the cursors as the step prescribes |
| `ControlDatabase.ControlDatabase.ReconcileAppliedCredentials` | control-server/src/db.rs:6051-6081 | the promotion and the revocation statement together settle every credential of the node |
| `ControlDatabase.ControlDatabase.RecordRevisionResult` | control-server/src/db.rs:5955-6022 | the transaction equals the report step, restores everything on failure and keeps the invariant |
| `ControlDatabase.ControlDatabase.RecordReportedProgress` | control-server/src/db.rs:4719-4836 | accepts a heartbeat's revision cursors exactly when the progress step does, with its error, stores cursor and agent version, and keeps the invariant |
| `ControlDatabase.ControlDatabase.ValidateReportedProgress` | control-server/src/db.rs:4758-4833 | the checks and the loop over the authoritative cursors find the first disagreement and its error |
| `ControlDatabase.ControlDatabase.PublishDesiredState` | control-server/src/db.rs:4838-4894 | the transaction equals the publication step, restores everything on failure and keeps the invariant |
| `ControlDatabase.ControlDatabase.IsUpToDate` | control-server/src/db.rs:5225-5249 | decides whether the newest revision is the live policy plus the canary and has not failed |
| `ControlDatabase.ControlDatabase.ReconcileNode` | control-server/src/db.rs:5215-5288 | the transaction equals the reconciliation step, restores everything on failure and keeps the invariant |
| `ControlDatabase.ControlDatabase.RotateProtocolCanary` | control-server/src/db.rs:5290-5372 | the transaction equals the canary rotation step, restores everything on failure and keeps the invariant |
| `ControlDatabase.ControlDatabase.RollBackCohort` | control-server/src/db.rs:4896-5009 | the transaction with its prepare and publish loops equals the rollback step, restores everything on failure and keeps the invariant |
| `SessionTheorems.OneRecordPerGeneration` | control-server/src/db.rs:8100-8262 | in every reachable state a session of generation g has exactly one rotation record for each generation below g and none from g on |
| `SessionTheorems.SameCredentialSameResponse` | control-server/src/db.rs:8105-8183 | any two successful responses to one refresh credential are identical and used the same key, whatever ran in between |
| `SessionTheorems.RefreshNeverConflicts` | control-server/src/db.rs:8112-8139 | the idempotency-key conflict of a refresh cannot happen, because the request is its credential |
| `SessionTheorems.RefreshSucceedsExactly` | control-server/src/db.rs:8184-8204 | the current credential rotates if and only if the session is not revoked, more than fifteen minutes remain, and the clock is not before the device's creation |
| `SessionTheorems.LastQuarterHour` | control-server/src/db.rs:998-998 | a live session in its last fifteen minutes cannot be refreshed: the attempt aborts and changes nothing |
| `SessionTheorems.RotationMeaning` | control-server/src/db.rs:8200-8262 | a rotation moves to the next generation, keeps the session's end, makes the presented credential the previous one and hands out the stored secrets |
| `SessionTheorems.ReuseExactly` | control-server/src/db.rs:8105-8183 | the reuse refusal happens if and only if the previous credential comes with a key other than the recorded one |
| `SessionTheorems.ReuseFreezes` | control-server/src/db.rs:8162-8183 | after reuse the session row never changes again on any run |
| `SessionTheorems.RevocationDecides` | control-server/src/db.rs:8355-8364 | an access token is accepted if and only if it is the session's newest, unexpired and the session is not revoked; all other lifecycle gates follow |
| `SessionTheorems.RevokedForever` | control-server/src/db.rs:8184-8192 | a revoked session never authenticates and never rotates again on any later run |
| `SessionTheorems.AccountStepEndsSessions` | control-server/src/db.rs:7610-7622 | sessions ended by a password change, reset, disabling or deletion stay ended, even after reactivation |
| `SessionTheorems.DeviceStepEndsSessions` | control-server/src/db.rs:8446-8456 | sessions of a revoked device stay ended |
| `SessionTheorems.OldAccessTokenDies` | control-server/src/db.rs:8227-8241 | the access token replaced by a rotation is refused on every later run |
| `SessionTheorems.LoginMeaning` | control-server/src/db.rs:7904-7972 | a new login's access token works exactly for its fifteen minutes and its refresh credential is the session's current one |
| `SessionTheorems.RotatedTokenWorks` | control-server/src/db.rs:8227-8241 | the access token of a rotation works exactly until its fifteen minutes end |
| `SessionTheorems.LoginAnswersForever` | control-server/src/db.rs:7818-7873 | a login key keeps answering the same request with the session it created, changing nothing |
| `SessionTheorems.ActivationAnswersForever` | control-server/src/db.rs:7502-7534 | a consumed activation keeps answering the same request with the session it created |
| `SessionTheorems.ActivationIsUsedOnce` | control-server/src/db.rs:7502-7505 | a consumed activation refuses every other request on every later run |
| `SessionChains.Reachable` | control-server/src/db.rs:8055-8285 | every reachable state keeps the linear chain, the gates, one record per rotation and the creation records |
| `SessionChains.RotationKeeps` | control-server/src/db.rs:8227-8262 | a rotation keeps every session invariant and only extends the records |
| `SessionChains.EndsKeeps` | control-server/src/db.rs:8516-8529 | a step that ends sessions keeps every session invariant |
| `SessionStore.SessionStore.RefreshMemberSession` | control-server/src/db.rs:8055-8285 | the statements of a refresh equal the refresh step and keep the invariant |
| `SessionStore.SessionStore.CreateMemberSession` | control-server/src/db.rs:7715-7816 | the statements of a login equal the login step and keep the invariant |
| `SessionStore.SessionStore.AuthenticateMember` | control-server/src/db.rs:8323-8387 | decides exactly as the authentication step |
| `SessionStore.SessionStore.RevokeMemberDevice` | control-server/src/db.rs:8428-8456 | the statements of a device revocation equal the step and keep the invariant |
| `SessionStore.SessionStore.SetAccountStatus` | control-server/src/db.rs:9600-9683 | the session side of a status change equals the step and keeps the invariant |
| `EndpointTheorems.VerifiedHasEvidence` | control-server/src/db.rs:4239-4286 | in every reachable state a verified endpoint is current and a protocol attempt for the same address, port and revision, not older than its verification generation, succeeded inside its lease |
| `EndpointTheorems.ShownVerifiedIsRecent` | control-server/src/db.rs:3454-3481 | an endpoint is shown as verified only if such an attempt succeeded in the last fifteen minutes |
| `EndpointTheorems.WithdrawnTogether` | control-server/src/db.rs:4652-4677 | in every reachable state a candidate is withdrawn exactly when its verification is |
| `EndpointTheorems.RotationUnverifies` | control-server/src/db.rs:5332-5339 | rotating the canary leaves no endpoint of the node verified and withdraws none |
| `EndpointTheorems.OneClaimPerNode` | control-server/src/db.rs:3562-3567 | in every reachable state at most one attempt per node is claimed |
| `EndpointTheorems.EndedForGood` | control-server/src/db.rs:4211-4237 | an attempt that has ended never changes again on any run |
| `EndpointTheorems.CompletionExactly` | control-server/src/db.rs:4083-4149 | how a completion ends a claimed attempt in each case, and that only a recorded protocol result touches a verification |
| `EndpointTheorems.StaleNeverSucceeds` | control-server/src/db.rs:4354-4409 | an expired or stale claim never records success |
| `EndpointTheorems.ClaimMeaning` | control-server/src/db.rs:3614-3669 | a granted job is for a current candidate of an active node that nobody else is probing, and its ticket is that candidate as it stands |
| `EndpointTheorems.ProtocolNeedsTcp` | control-server/src/db.rs:3710-3731 | a protocol probe is handed out only after a recent successful TCP probe of the same address at the current verification generation |
| `EndpointTheorems.CurrentIsLastReport` | control-server/src/db.rs:4476-4514 | in every reachable state the current candidates of a node are exactly the endpoints of its last accepted heartbeat and carry its generation |
| `EndpointTheorems.HeartbeatMeaning` | control-server/src/db.rs:4568-4717 | an accepted heartbeat makes the mentioned endpoints current, withdraws the others, and keeps a verification only for an endpoint that stayed current |
| `EndpointTheorems.HeartbeatReplay` | control-server/src/db.rs:3275-3298 | repeating the last heartbeat changes nothing; an older or different one of that generation is refused |
| `EndpointTheorems.HeartbeatAcceptedExactly` | control-server/src/db.rs:3299-3337 | a newer valid heartbeat of an admitted node is accepted if and only if its received, validated and applied revisions are the stored ones, its desired revision moves forward within the node's own, its telemetry cursor does not go back, and each endpoint has the right port, unchanged fields, a free address when it returns from withdrawal, and a known revision and lasting lease when new |
| `EndpointTheorems.TakenOverAddressIsRefused` | control-server/src/db.rs:4487-4502 | a withdrawn endpoint whose address another current endpoint holds cannot be reported again, because withdrawal comes after refresh |
| `EndpointTheorems.TakeOverExample` | control-server/src/db.rs:4487-4502 | a concrete run in which a valid, newer heartbeat is refused for that reason |
| `Evidence.Reachable` | control-server/src/db.rs:3243-3349 | every reachable state keeps evidence, generations, single claims and the last report |
| `Evidence.BeatenKeeps` | control-server/src/db.rs:4476-4514 | an accepted heartbeat keeps every endpoint invariant and rewrites no ended attempt |
| `Evidence.CompleteKeeps` | control-server/src/db.rs:4083-4149 | a completion keeps every endpoint invariant and rewrites no ended attempt |
| `Heartbeats.RecordEffect` | control-server/src/db.rs:4476-4514 | the refresh loop, the withdrawal and the insert loop together change each row as one report prescribes |
| `EndpointRegistry.EndpointRegistry.RefreshEndpointCandidate` | control-server/src/db.rs:4568-4650 | updates a known candidate in place as the step does, and reports whether it was known |
| `EndpointRegistry.EndpointRegistry.RecordEndpointCandidates` | control-server/src/db.rs:4476-4514 | the refresh loop, withdrawal and insert loop equal the report step |
| `EndpointRegistry.EndpointRegistry.RecordHeartbeat` | control-server/src/db.rs:3243-3349 | the transaction equals the heartbeat step, restores everything on failure and keeps the invariant |
| `EndpointRegistry.EndpointRegistry.ClaimProbe` | control-server/src/db.rs:3614-3669 | the transaction equals the claim step, restores everything on failure and keeps the invariant |
| `EndpointRegistry.EndpointRegistry.CompleteProbe` | control-server/src/db.rs:4083-4149 | the transaction equals the completion step, restores everything on failure and keeps the invariant |
| `TelemetryTheorems.ExactlyOnce` | control-server/src/db.rs:2674-2720 | after any run the accepted events of a node are exactly those numbered 1 to its acknowledged sequence, in order |
| `TelemetryTheorems.StreamPrefix` | control-server/src/db.rs:2674-2720 | if every batch is cut from one stream, in any order and number, the controller holds a prefix of that stream |
| `TelemetryTheorems.RedeliveryChangesNothing` | control-server/src/db.rs:2680-2693 | a batch stored once is acknowledged whenever it comes again after any further run, with the sequence reached by then, and changes nothing |
| `TelemetryTheorems.NextEventIsNew` | control-server/src/db.rs:2830-2852 | in every reachable state the key of the next event is free |
| `TelemetryTheorems.BucketsAreExact` | control-server/src/db.rs:2853-2944 | in every reachable state each hourly and daily bucket is the sum of the deltas accepted since the last pass that dropped it, and so the sum of all its deltas exactly when nothing accepted before that pass counted in it |
| `TelemetryTheorems.DayIsSumOfHours` | control-server/src/db.rs:2860-2883 | a day none of whose buckets was ever dropped equals the sum of its 24 hours, in every reachable state |
| `TelemetryTheorems.RetentionIsAligned` | control-server/src/db.rs:3043-3058 | a retention pass deletes exactly the buckets that end before the retention window and changes no other |
| `TelemetryTheorems.LateTelemetryRecreates` | control-server/src/db.rs:2907-2944 | after any run, a pass that drops a bucket and one more stored batch, the bucket is the sum of that batch's deltas, and of all its deltas exactly when nothing accepted before the pass counted in it |
| `TelemetryTheorems.LateRunLoses` | control-server/src/db.rs:2907-3058 | a family of runs from the empty tables, for every user, node, time and delta, that end with one delta in a bucket whose accepted events add up to two |
| `TelemetryTheorems.AcceptedIsSound` | control-server/src/db.rs:2741-2830 | every accepted event is at most a day ahead of the clock and names only users assigned to the node |
| `TelemetryTheorems.RawEventsAreExact` | control-server/src/db.rs:2741-3042 | in every reachable state the stored raw events are exactly the accepted ones that every later retention pass kept, with connection details exactly for those accepted while detailed collection was on |
| `Rollups.Reachable` | control-server/src/db.rs:2647-2730 | every reachable state keeps the roll-ups, the raw events, the numbering and the event keys |
| `Rollups.PersistRolls` | control-server/src/db.rs:2853-2884 | storing one event keeps both roll-ups and the raw events equal to what the history prescribes |
| `TelemetryStore.TelemetryStore.IngestTelemetry` | control-server/src/db.rs:2647-2730 | the ingestion with its event loop equals the step, restoring everything on failure |
| `TelemetryStore.TelemetryStore.PersistEvent` | control-server/src/db.rs:2733-2886 | stores one event and adds its delta to its hour and day exactly as the step does |
| `TelemetryStore.TelemetryStore.EnforceRetention` | control-server/src/db.rs:3018-3058 | the deletes equal the retention step |
| `RelayTheorems.NoJobIsLost` | control-server/src/db.rs:10946-11029 | in every reachable state a grant is revoking exactly when it has an uncompleted revoke job, and a pending grant has an uncompleted publish job |
| `RelayTheorems.OneDueJob` | control-server/src/db.rs:10962-10972 | in every reachable state at most one job of a grant is due, exactly from its next attempt on |
| `RelayTheorems.BackoffBound` | control-server/src/db.rs:11121-11124 | the retry delay is between 1 and 256 seconds and does not decrease with attempts; the cap of 300 is never reached |
| `RelayTheorems.GrantsOnlyAdvance` | control-server/src/db.rs:11007-11102 | a grant keeps its identity and its state never goes back on any run |
| `RelayTheorems.AcknowledgementMeaning` | control-server/src/db.rs:11031-11085 | afterwards the acknowledged grant is its route's only published one, the older ones are revoking with a job each, and nothing else changes |
| `RelayTheorems.AcknowledgementIdempotent` | control-server/src/db.rs:11031-11085 | repeating an acknowledgement before expiry changes nothing |
| `RelayTheorems.OlderComesBackExactlyIfPending` | control-server/src/db.rs:11031-11085 | after a grant was acknowledged, an older grant of its route is acknowledged on some later run if and only if it was still pending then, and whenever it is, the newer one is no longer published |
| `RelayTheorems.RotationOverlaps` | control-server/src/db.rs:10883-11029 | storing and publishing the next generation leaves every published grant serving |
| `RelayTheorems.PreparedIsFresh` | control-server/src/db.rs:10828-10847 | a prepared grant has the lowest free port of the range and a generation above all of its route |
| `RelayTheorems.PrepareThenStore` | control-server/src/db.rs:10883-10922 | stored right away under a new identifier, a prepared grant is accepted |
| `RelayTheorems.NodeActionClosesGrants` | control-server/src/db.rs:9828-9846 | a lifecycle action leaves none of the node's grants open and touches no other node's |
| `RelayTheorems.ExpiryClosesExpired` | control-server/src/db.rs:10946-10960 | after an expiry pass no expired grant is open and unexpired grants are untouched |
| `Outbox.Reachable` | control-server/src/db.rs:10883-11156 | every reachable state keeps the jobs of every grant and the generations of every route |
| `RelayLedger.RelayLedger.FindPort` | control-server/src/db.rs:10834-10847 | the port loop finds the lowest free port of the range, if any |
| `RelayLedger.RelayLedger.PrepareGrant` | control-server/src/db.rs:10757-10881 | equals the preparation step, stores only the route and keeps the invariant |
| `RelayLedger.RelayLedger.StorePendingGrant` | control-server/src/db.rs:10883-10922 | equals the storing step and keeps the invariant |
| `RelayLedger.RelayLedger.MarkGrantPublished` | control-server/src/db.rs:11007-11029 | equals the publication mark and keeps the invariant |
| `RelayLedger.RelayLedger.AcknowledgeAssignment` | control-server/src/db.rs:11031-11085 | equals the acknowledgement step and keeps the invariant |
| `RelayLedger.RelayLedger.ExpireGrants` | control-server/src/db.rs:10946-10960 | equals the expiry step and keeps the invariant |
| `Nonces.NeverAcceptedTwice` | control-server/src/db.rs:3153-3241 | no signed request is accepted twice on any run unless some request accepted in between came after its window had closed |
| `Nonces.AcceptedAgainExactly` | control-server/src/db.rs:3153-3241 | an accepted request that comes again before its nonce was claimed anew is accepted again if and only if it passes the other gates and such a request was accepted in between |
| `Nonces.SteadyClockIsEnough` | control-server/src/db.rs:3153-3241 | with a clock that never goes back no signed request is accepted twice on any run |
| `Nonces.NonceReuseNeedsClosedWindow` | control-server/src/db.rs:3159-3168 | a nonce of a key is accepted again only after the first request's window has closed, or after a request accepted in between swept it |
| `Nonces.ClockGoingBackReadmits` | control-server/src/db.rs:3165-3168 | a swept request is readmitted when the clock returns to its window |
| `Nonces.NonceGate.AuthenticateNodeRequest` | control-server/src/db.rs:3153-3241 | the statements equal the authentication step; every error leaves the nonce table as it was |
| `NewestRevisions.NewestRevisionIsThePolicy` | control-server/src/db.rs:5418-5522 | in every reachable state the members of a node's newest revision, without those revoked since, are exactly the pending or active credentials of active accounts enabled on the node; the two sets are equal exactly when no member was revoked |
| `NewestRevisions.StepKeepsTracks` | control-server/src/db.rs:4838-6357 | every step keeps the newest revision of every node in line with the live policy in that sense |
| `Controllers.TransactionAgrees` | control-server/src/db.rs:9519-9697 | once the publication half of an account transaction commits, the session half cannot refuse, and both halves hold the same accounts with the same statuses |
| `AccountSides.PlaneKeepsAccounts` | control-server/src/db.rs:4838-5372 | publication, reconciliation, rollback, enrollment, lifecycle and report steps change no account status |
| `Controllers.StepKeeps` | control-server/src/db.rs:7593-9697 | every step of the whole controller keeps the invariants of all groups, the shared account status, node row, revision log and canaries, and takes nothing back |
| `Controllers.BeatIsReport` | control-server/src/db.rs:3299-3329 | what an accepted heartbeat does to the shared node row is exactly the progress step of the publication tables, or nothing when it repeats the last one |
| `ControllerTheorems.HeartbeatAcceptedExactly` | control-server/src/db.rs:3243-3349 | in every reachable state of the whole controller a newer valid heartbeat of an admitted node is accepted if and only if the publication tables accept its progress, its telemetry cursor does not go back, its endpoints are acceptable and the new ones have a lasting lease; the revision they name is always known |
| `AuditTrail.UnauditedIsQuiet` | control-server/src/db.rs:5955-6022 | a committed publication step that writes no audit row changes only received and validated results, reported cursors and agent versions |
| `AuditTrail.RunIsQuiet` | control-server/src/db.rs:10702-10748 | a run of the whole controller that writes no audit row leaves accounts, assignments, credentials, canaries, revisions, rollback answers and the whole session store unchanged |
| `ControllerTheorems.InactiveIsLockedOut` | control-server/src/db.rs:9600-9666 | in every reachable state of the whole controller a disabled or deleted account has no unrevoked credential in any node's newest revision and none of its access tokens authenticates |
| `ControllerTheorems.StatusChangeLocksOut` | control-server/src/db.rs:9519-9583 | a committed disable or delete ends every existing session of the user for all later runs and leaves the user out of the newest revision of each node whose user set changed |
| `HighWater.NotBehindIsAPreorder` | control-server/src/backup.rs:476-512 | the rollback comparison is reflexive and transitive, and holds both ways exactly for marks equal up to absent zeros |
| `HighWater.EnsureNotRollback` | control-server/src/backup.rs:476-512 | the nested loops accept exactly when no baseline mark exceeds the candidate's |
| `HighWater.AnyBehind` | control-server/src/backup.rs:504-507 | finds whether some baseline mark exceeds the candidate's, a missing one counting as zero |
| `HighWater.LoadKeyedMarks` | control-server/src/backup.rs:462-474 | the loop maps each key to the value of its last row and nothing else |
| `Backups.RunRaisesMarks` | control-server/src/backup.rs:428-460 | no run of the whole controller lowers a high-water mark |
| `Backups.EarlierBackupRestoresExactly` | control-server/src/backup.rs:243-273 | a created backup of an earlier state of the same controller is restored over the current database exactly when the marks are equal up to absent zeros |
| `Backups.RestoreLosesOnlyProgress` | control-server/src/backup.rs:243-307 | an accepted restore of an earlier backup brings back the backed-up controller and loses at most the progress nodes reported since; accounts, credentials, revisions and sessions are the current ones |
| `Backups.ProgressMovesNoMark` | control-server/src/backup.rs:428-460 | a received or validated report moves no mark, so such a restore does lose it |
| `Backups.VerifyAcceptsExactlyCreated` | control-server/src/backup.rs:218-232 | verification accepts a backup if and only if creation writes exactly that manifest for exactly those files |
| `Backups.CreatedBackupVerifies` | control-server/src/backup.rs:169-210 | a created backup verifies to what inspecting its files finds |

## Left out

- HTTP routing, configuration loading, CLI, process wiring, the user interface and the relay data plane.
- SQLite itself: migrations, pragmas and locking; only table contents and constraints are modelled.
- Cryptography, Argon2 and JSON encoding, beyond treating their results as injective terms.
- Audit event contents; only the number of rows enters the high-water marks.
- Idempotent replay of account and enrollment creation and of reset-token issue; the replays modelled are those of login, activation, refresh and operator rollback.
- Profile bundles beyond their generation counter, and the queries that list accounts, nodes and aggregates.
- Revisions written before member snapshots existed; every modelled revision has a snapshot.
- Overflow of a credential's version counter and of timestamps near the 64-bit limit.
- CHECKs that compare two clock readings in the accounts, assignments and credentials tables; they abort only when the clock has gone back since the row was written. The session, endpoint and nonce models keep theirs.
- The layout and permission checks on backup directories, locks, dry runs and the staging of restored files.
- Uniqueness of a relay port when another grant is prepared between preparing and storing one.
- `updated_at`, `last_seen_at` of devices and similar bookkeeping columns that no decision reads; the CHECK on `last_seen_at` is kept as a guard.
- Device key uniqueness, which only adds one more way for a login to abort.
- ControlDatabase.ControlDatabase.CompileDesiredUsers: the rows are read in arbitrary order, because the document sorts them again.
- Rows of one SQL statement are changed together, as the statement does; loops are modelled where the source loops.
