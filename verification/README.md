# jupiq, modelled and proved in Dafny

jupiq is a control plane for JupyterHub installations. Its hard logic is a set of small concurrent protocols over
database tables, with some arithmetic and string kernels beside them. This project models them and proves what they
keep, mostly over every run and every interleaving.

Tables are maps and each transaction is one atomic step. Where a handler or the collector reads, calls a remote
system and then writes, the read and the write are separate steps and anything may happen in between; the advisory
and row locks themselves are modelled operation by operation in `Locks`. SHA-256 is taken to be collision-free, so a
fingerprint is the byte stream that is hashed, and encryption yields a fresh, nonempty ciphertext. Strings are byte
strings with ASCII case folding and trimming, shared by the Go and the SQL side. Metric values are reals, times are
integers. Every source file that works step by step has its methods here too: they compute or update as the source
does and are proved equal to the specification functions the theorems are about.

| module | what it models |
|---|---|
| `Codec` | the length-prefixed byte streams behind the three generation fingerprints, their decoders and their step-by-step writers |
| `HubSync`, `HubStore` | one Hub snapshot applied to servers, sessions and users; the same as the transaction's loops, and the Hub store's methods |
| `SyncEffects` | what a committed sync did to every server, session and user row |
| `HubProtocol`, `HubEffects` | Hub create, update and delete interleaved with delayed syncs, health writes and server-action reads; which forms are taken and what each write stores |
| `Locks` | the guarded metric, LLM and Pod saves, as programs over locks |
| `SettingsSecrets`, `SettingsTraces` | settings forms and the secrets bound to a target, TLS mode and OIDC client; which secret is stored after any run |
| `Approvals`, `ApprovalTraces` | review, approve and reject handlers racing through a stale read and a compare-and-swap; what every row and run goes back to |
| `Permissions`, `Scopes`, `Rbac`, `RbacEffects` | permission wildcards, stored scope clauses, and role transactions: what they keep, accept and store |
| `Access`, `Entitlements` | the row-level predicate, and who sees what in terms of the stored rows |
| `OidcCache`, `OidcEffects` | the single-flight OIDC provider cache |
| `Rollup`, `RollupColumns` | the hourly consumption rollup and the runtime buckets of the usage view |
| `WindowTable`, `RequestLimiter`, `LoginLimiter` | the fixed-window limiters |
| `LlmMetrics`, `LlmRows` | merging LLM usage series and saving them, and the rows that leaves |
| `Nonce` | adding nonces to pasted script tags |

## What came out

Where the code does less than its comments, tests or schema suggest, the code is kept and the exact condition is proved.

- A restart reported earlier than the recorded session start would close a session before it began; the CHECK in
  `migrations/006_server_session_history.sql` turns that into a failed sync, and it stays failed
  (`HubSync.EarlierStartIsReachable`, `HubSync.EarlierStartIsRefused`; exactly when a sync commits:
  `HubSync.SyncCommitsExactlyWhenAccepted`). A NUL in a reported name refuses the whole snapshot as well.
- Retargeting a Hub detaches its open sessions, and no later sync ends them (`HubProtocol.OrphanedSessionNeverEnds`).
- `DeleteSecret` takes no lock, so a batch can be saved although the secret it was fetched with is gone
  (`Locks.DeleteSecretEscapesTheGuard`). In runs that do not delete it the secret is guarded like everything else
  (`Locks.GuardedSavesKeepTheSecret`, `Locks.GuardedSavesAreCurrent`), and no handler calls `DeleteSecret` today.
- Permission lists are merged without regard to case but compared with it, and role texts have no catalogue, so an
  assignment of "hubs:read" and "Hubs:read" by an actor who holds only the first is accepted
  (`Rbac.HubsReadEscalates`). Exactly when that happens: `Rbac.AssignmentEscalatesExactly`; without case variants it
  never does (`Rbac.EscalationNeedsAHolder`).
- Deleting a Hub can widen a restricted binding, exactly when every Hub clause named that Hub and a department clause
  is left (`Access.HubDeletionWidensExactly`).
- Running the rollup twice over unchanged tables can change consumption: the second run starts its window later, so a
  sample that lost its predecessor is credited the cap. CPU core-seconds, memory byte-seconds, GPU seconds and
  coverage all change (`Rollup.RerunCanChangeARow`); exactly when a rerun changes anything:
  `Rollup.RerunChangesNothingExactly`, and by column `Rollup.TotalIgnoresLaterStartExactly`.
- The rollup writes an all-zero row for the hour in progress exactly when a session that ran into it has ended since
  (`Rollup.InProgressHourExactly`).
- The hub and model columns of a merged LLM row come untrimmed from the first point, so they depend on the order of
  the batch exactly when the points spell them differently (`LlmMetrics.NamesIgnoreOrderExactly`); nothing else does.
- Two hub URLs that differ only by trailing slashes or blanks are one authority: provenance is stated up to the trimmed
  URL the generation is built from. Trimming is not idempotent ("x /" becomes "x "), so the trimmed URL is compared as
  the code computes it.

## Model

| member | source | states |
|---|---|---|
| Codec.HubStreamDecodes | internal/store/hubs.go:118-145 | a decoder gives back every Hub credential from the bytes that are hashed for it |
| Codec.HubGenerationIsInjective | internal/store/hubs.go:118-145 | equal Hub generations mean equal id, authority, TLS mode, enabled flag and ciphertext |
| Codec.ConfigStreamDecodes | internal/store/settings.go:397-411 | for a fixed key list the configuration stream decodes to the settings of those keys and the ciphertext, absent keys included |
| Codec.ConfigGenerationIsInjective | internal/store/settings.go:397-411 | configuration fingerprints agree exactly when the listed settings and the ciphertext do |
| Codec.InventoryStreamDecodes | internal/store/settings.go:416-457 | the inventory stream decodes row by row, with and without a server, NULL read as empty |
| Codec.InventoryGenerationIsInjective | internal/store/settings.go:416-457 | inventory fingerprints agree exactly when the inventories do, NULL and empty text identified |
| Codec.HubCredentialGeneration | internal/store/hubs.go:118-138 | the writer's calls feed exactly the decodable stream |
| Codec.IntegrationConfigFingerprint | internal/store/settings.go:397-411 | the loop over keys feeds exactly the decodable stream |
| Codec.IntegrationInventoryFingerprint | internal/store/settings.go:416-457 | the loop over rows feeds exactly the decodable stream |
| Codec.HashState.WriteField | internal/store/hubs.go:140-145 | a field is its eight-byte length followed by its bytes |
| HubSync.SyncTracksSnapshot | internal/store/hubs.go:390-535 | after a committed sync a server is non-stopped, and has its one open session, exactly when the snapshot lists it as active; a user is active exactly when listed; every row written carries the snapshot's origin; other Hubs are untouched |
| HubSync.SyncCommitsExactlyWhenAccepted | internal/store/hubs.go:390-513 | for every snapshot, servers and users named twice included, the transaction commits exactly when a condition on the tables before it holds, one that follows only the starts of open sessions |
| HubSync.OpenExactlyWhenRunning | internal/store/hubs.go:494-513 | in consistent tables an open session exists exactly for the non-stopped servers |
| HubSync.EarlierStartIsRefused | internal/store/hubs.go:494-513 | a snapshot that reports a start before the recorded session start is refused at every time |
| HubSync.EarlierStartIsReachable | migrations/006_server_session_history.sql:1-15 | such tables arise after one ordinary sync, whatever the times |
| HubSync.ObserveAllKeeps | internal/store/hubs.go:409-458 | applying any list of observations keeps unique open sessions, dates, links and ids, and touches only their servers |
| SyncEffects.StatusTells | internal/store/hubs.go:547-558 | a stored status tells whether the server is pending, and on what, starting or running; none says it stopped |
| SyncEffects.ObservedAre | internal/store/hubs.go:521-535 | every server of a user is observed, with its own status, start and activity, as is the single server of older Hubs |
| SyncEffects.SessionsEndExactly | internal/store/hubs.go:409-513 | every session keeps its server, user and start; an open one is ended exactly when its server is gone from the snapshot, at the sync, or was reported started again, at the earlier of that start and the sync; ended and detached ones and those of other Hubs are as they were |
| SyncEffects.SessionsBeginAsReported | internal/store/hubs.go:494-513 | every session a sync opens is for a listed server, from the reported start unless that is over a minute ahead, else the recorded one, else the sync |
| SyncEffects.ServerRowsFollowReports | internal/store/hubs.go:409-441 | a listed server has the status, start and activity last reported, an unlisted one is stopped and otherwise as it was; identities stay |
| SyncEffects.UserRowsFollowReports | internal/store/hubs.go:425-469 | a listed user's row is what the snapshot last says; an unlisted one is inactive and otherwise as before |
| SyncEffects.OnceListedExactly | internal/store/hubs.go:494-513 | a server listed once that goes on running keeps its one session, with the activity reported; a new or restarted one has exactly one new session, and its old one is ended |
| HubProtocol.HubSafety | internal/store/hubs.go:39-469 | in every interleaving, every server, user and health row came from the Hub's current authority, every token was entered for the authority and TLS mode now stored, every action pairs a username with its own endpoint, and the latest committed snapshot is tracked |
| HubProtocol.StepKeeps | internal/store/hubs.go:183-469 | each create, update, delete, credential read, delayed sync or health commit and action read keeps that invariant |
| HubProtocol.MatchMeansSameCredential | internal/store/hubs.go:147-159 | a matching generation means the Hub's authority, TLS mode and ciphertext are those captured |
| HubProtocol.TokensAreNeverReused | internal/store/hubs.go:183-269 | a Hub's ciphertext only ever changes to one never produced before |
| HubProtocol.RetargetRetiresCaptures | internal/store/hubs.go:183-269 | after a retarget, TLS change or token entry, no earlier capture of the Hub, under the credential just replaced or any older one, ever commits again, in any later run, even if the old settings return |
| HubProtocol.RetargetDetachesSessions | internal/store/hubs.go:253-264 | replacing the target detaches the Hub's open sessions without ending them |
| HubProtocol.OrphanedSessionNeverEnds | internal/store/hubs.go:390-469 | a detached open session stays open through every run that does not delete its Hub |
| HubProtocol.ActionIsOk | internal/store/hubs.go:781-808 | under the invariant a server action's username, endpoint and token belong to one authority |
| HubEffects.CreateAcceptedExactly | internal/store/hubs.go:39-80 | a new Hub is taken exactly when its trimmed fields keep their limits, it has a token, and its interval is left out or within bounds |
| HubEffects.CreateStoresTheForm | internal/store/hubs.go:39-80 | every field stored is the form's, with the defaults where it leaves them out; nothing else changes |
| HubEffects.UpdateAcceptedExactly | internal/store/hubs.go:183-225 | an update is taken exactly when the fields it leads to keep their limits and it brings a token or leaves target and TLS mode alone |
| HubEffects.UpdateStoresTheForm | internal/store/hubs.go:183-269 | every field is the one given, or as it was where none is; a new target makes status, version and error unknown |
| HubEffects.UpdateDropsExactly | internal/store/hubs.go:253-264 | rows change only when the target is replaced: the Hub's servers and users go, its sessions only lose their server, nothing of another Hub changes |
| HubEffects.DeleteRemovesExactly | internal/store/hubs.go:315-331 | a deleted Hub takes its servers, users and sessions along, and nothing else |
| HubEffects.HealthIsStored | internal/store/hubs.go:348-376 | a current report sets healthy with the version, or degraded with the error, cut to a thousand bytes between characters, and nothing else |
| HubEffects.CaptureMatchesExactly | internal/store/hubs.go:91-159 | a captured response may be written exactly while authority, TLS mode, enabled flag and ciphertext are those at capture |
| HubEffects.ActionGoesToTheServersHub | internal/store/hubs.go:781-808 | a server action uses endpoint, TLS mode and token of the server's own Hub |
| HubStore.PlanKeyIsInjective | internal/store/hubs.go:521-535 | without NUL in user names the plan's map keys do not collide |
| HubStore.PlanHubSnapshot | internal/store/hubs.go:521-535 | the loops list every user and the keys of exactly the active servers |
| HubStore.RunningServerStates | internal/store/hubs.go:476-492 | the loop maps the running servers of the Hub to their recorded start |
| HubStore.ReconcileServerSession | internal/store/hubs.go:494-513 | closing a replaced session and opening or touching the current one equals the specified change, or the database refuses it |
| HubStore.ApplyOneUser | internal/store/hubs.go:409-458 | the writes for one user, server by server, equal the specified change, refusal included |
| HubStore.SyncTables | internal/store/hubs.go:390-469 | the whole sequence of statements, with its maps keyed by text, equals the specified sync, refusals included |
| HubStore.Store.CreateHub | internal/store/hubs.go:39-80 | inserts the completed row under its own token binding, or changes nothing |
| HubStore.Store.UpdateHub | internal/store/hubs.go:183-269 | a kept token demands an unchanged binding; a changed target drops materialized rows; otherwise nothing changes |
| HubStore.Store.DeleteHub | internal/store/hubs.go:315-331 | the Hub goes with its rows and sessions; the scope clauses that name it are `Access.WithoutHub`'s |
| HubStore.Store.GetHubCredential | internal/store/hubs.go:91-112 | the capture returned matches the Hub now and describes its credential |
| HubStore.Store.LockAndMatch | internal/store/hubs.go:147-159 | true exactly while the Hub exists and its generation is the captured one |
| HubStore.Store.UpdateHubHealthIfCurrent | internal/store/hubs.go:348-376 | writes exactly when the capture still matches |
| HubStore.Store.SyncHubUsersIfCurrent | internal/store/hubs.go:382-469 | writes exactly when the capture still matches and the database accepts the snapshot, and then the whole sync |
| HubStore.Store.GetServerActionCredential | internal/store/hubs.go:781-808 | returns the server's row with its own Hub's endpoint and token, from one authority |
| Locks.GuardedSavesAreCurrent | internal/store/metrics.go:27-48 | in every interleaving a saved batch's settings and inventory equal those at capture, and its secret too exactly unless a deletion slipped in after the check |
| Locks.GuardedSavesKeepTheSecret | internal/store/settings.go:466-494 | in every run that never begins to delete the captured secret, a saved batch's secret is the one at capture |
| Locks.NoCircularWait | internal/store/settings.go:22-28 | no reachable state contains a circular wait |
| Locks.SomeoneCanProceed | internal/store/settings.go:22-28 | from any transaction the chain of lock holders ends at one that is not blocked |
| Locks.Ascending | internal/store/settings.go:22-28 | every program takes its locks in rising rank: settings or RBAC, inventory, Hub row, feature row |
| Locks.CommitLeavesGuards | internal/store/settings.go:466-494 | no other commit disturbs what a guarded transaction has checked |
| Locks.DeleteSecretEscapesTheGuard | internal/store/settings.go:1187-1196 | deleting the captured secret after the check lets the batch be saved, whatever is stored |
| Locks.UndisturbedBatchIsSaved | internal/store/metrics.go:27-48 | a batch fetched with a usable generation is saved when nothing interferes |
| Locks.CommitsLand | internal/store/settings.go:108-146 | a commit makes the transaction's own writes visible, key by key, and no others |
| Locks.MatchConfig | internal/store/settings.go:469-482 | true exactly when the generation is usable and the listed settings and the ciphertext are those captured |
| Locks.MatchInventory | internal/store/settings.go:483-494 | true exactly when the inventory is that captured |
| SettingsSecrets.MatchIsBindingEquality | internal/store/settings.go:201-236 | the binding match is equality of bindings that name a target (and, for OIDC, a client), so it composes over any number of edits |
| SettingsSecrets.SecretsStayBound | internal/store/settings.go:86-194 | over any run of forms and deletions every stored secret was entered under the binding now stored |
| SettingsTraces.SecretsAreAsLastEntered | internal/store/settings.go:86-146 | after any run a stored secret is the text the last accepted form to submit it brought, labelled with the binding right after that form, and missing exactly when never entered or deleted since |
| SettingsTraces.SubmittedSecretsAreStored | internal/store/settings.go:138-142 | an accepted form stores each submitted secret as entered, one version on, and no other |
| SettingsTraces.SectionsAreStored | internal/store/settings.go:86-107 | sections are stored as sent, the AI section completed with its provider and streaming, all others as they were |
| SettingsTraces.SameBindingExactly | internal/store/settings.go:201-236 | bindings agree exactly when issuer, mail host or base URL, client and TLS mode do, up to blanks and trailing slashes |
| SettingsTraces.FormWithSecretAccepted | internal/store/settings.go:86-194 | a form that brings its integration's secret is taken unless the secret is blank or the AI section no object |
| SettingsTraces.FormWithoutSecretAccepted | internal/store/settings.go:163-194 | without any secret it is taken unless it would enable OIDC |
| SettingsTraces.SecretAloneAccepted | internal/store/settings.go:108-120 | a secret on its own is taken exactly when it is one of the six and not blank |
| SettingsTraces.RefusalsTell | internal/store/settings.go:163-194 | which refusal a form meets: no object, OIDC without secret, or a binding that must be re-entered |
| SettingsSecrets.EnabledOidcKeepsItsSecret | internal/store/settings.go:163-194 | unless it is deleted, an enabled OIDC integration always has its client secret |
| SettingsSecrets.RetainedSecretAccepted | internal/store/settings.go:163-224 | a form that keeps a stored secret is taken exactly when it keeps its binding |
| SettingsSecrets.FirstErrorFindsAny | internal/store/settings.go:163-194 | the loop over integrations refuses exactly when one of them does |
| SettingsTraces.FirstErrorIsTheFirst | internal/store/settings.go:163-194 | the refusal returned is that of the first integration in table order that has one |
| SettingsSecrets.SettingsTables.ValidateStoredSecretBindings | internal/store/settings.go:163-194 | the loop returns the first refusal in table order |
| SettingsSecrets.SettingsTables.EncodeValues | internal/store/settings.go:86-107 | the encoded sections, or an error when the AI section is no object |
| SettingsSecrets.SettingsTables.UpdateSettingsAndSecrets | internal/store/settings.go:86-146 | sections and secrets are all written, or nothing is; accepted exactly when every check passes |
| Approvals.AtMostOnce | internal/api/resource_handlers.go:227-463 | in every interleaving an approval's action runs at most once, no status is given twice, and the claimer's final transition never loses |
| Approvals.SeparationOfDuties | internal/api/resource_handlers.go:289-409 | the approver is not the requester, the action run is the one on the row, and under manager review a third person reviewed |
| ApprovalTraces.RunsWereRequested | internal/api/resource_handlers.go:712-733 | in every interleaving each action run goes back to a request for that approval, by the recorded requester, for that very server and action, and the recorded workflow is the one configured last before it |
| ApprovalTraces.MarksAreTheirAuthors | internal/api/resource_handlers.go:267-409 | every review, execution and rejection on record was begun by the person it names, for that approval, with that reason |
| ApprovalTraces.RunnersApproved | internal/api/resource_handlers.go:289-336 | whoever is on record as running an action asked to approve it |
| ApprovalTraces.ActingExactly | internal/api/resource_handlers.go:197-409 | who may review, approve and reject a row is decided by the recorded workflow, requester and review, whatever the configuration has become |
| ApprovalTraces.RequestAwaits | internal/api/resource_handlers.go:712-733 | a fresh request awaits a review exactly under manager review, an approval exactly without, by anybody but the requester |
| ApprovalTraces.ConflictById | internal/api/resource_handlers.go:378-409 | which conflict it is, by recorded ids |
| ApprovalTraces.ConflictByName | internal/api/resource_handlers.go:378-409 | and for rows without ids by name, blanks and case aside |
| ApprovalTraces.UndisturbedReview | internal/api/resource_handlers.go:267-287 | a review nothing disturbs leaves the row pending with the review on it, all else unchanged |
| ApprovalTraces.UndisturbedApproval | internal/api/resource_handlers.go:321-376 | an approval nothing disturbs claims the row, runs the requested action once, and records approved or failed as it went |
| ApprovalTraces.UndisturbedRejection | internal/api/resource_handlers.go:410-463 | a rejection nothing disturbs closes the row with the rejection on it |
| ApprovalTraces.HistoryRecordsStatuses | internal/store/approvals.go:10-36 | a step gives at most one row a status, a later one, and puts it on record |
| Approvals.OutcomeMatchesRun | internal/api/resource_handlers.go:336-376 | an approved row's action ran and succeeded, a failed row's ran and failed |
| Approvals.MoveKeepsReaders | internal/store/approvals.go:10-36 | a stale reader whose status still matches read the whole row as it is |
| Approvals.StepKeeps | internal/api/resource_handlers.go:227-463 | every step, crashes and workflow changes included, keeps the invariant |
| Approvals.CheckReview | internal/api/resource_handlers.go:227-266 | goes on exactly when the row, workflow, reason and actor allow a review; otherwise says which check failed |
| Approvals.CheckApprove | internal/api/resource_handlers.go:289-334 | goes on exactly when approval is allowed; otherwise says which check failed |
| Approvals.CheckReject | internal/api/resource_handlers.go:410-448 | goes on exactly when rejection is allowed |
| Approvals.ApprovalTable.TransitionResource | internal/store/approvals.go:12-36 | wins exactly when the status is the expected one, and then changes that row alone |
| Approvals.ApprovalTable.CommitReview | internal/api/resource_handlers.go:267-287 | the review's swap to pending, with who reviewed it recorded |
| Approvals.ApprovalTable.CommitReject | internal/api/resource_handlers.go:449-463 | the rejection's swap from the status that was read, with the rejector recorded |
| Approvals.ApprovalTable.Claim | internal/api/resource_handlers.go:330-348 | the claim's swap and the claimer's next state |
| Approvals.ApprovalTable.Finish | internal/api/resource_handlers.go:345-376 | the final transition to failed or approved |
| Permissions.GrantsExactly | internal/store/users.go:896-906 | a permission grants itself, "*" everything, and "area:*" exactly the permissions "area:..." |
| Permissions.EnsurePermissionExactly | internal/store/users.go:896-906 | a list grants a permission exactly when it holds it, "*", or the wildcard of an area it lies in |
| Permissions.GrantsComposes | internal/store/users.go:896-906 | one permission granting another grants all that one grants, over every wildcard shape |
| Permissions.ScopesWithinIsInclusion | internal/store/users.go:923-933 | for nonempty S the check of S against P holds exactly when P grants every string S grants |
| Permissions.CeilingIsTransitive | internal/store/users.go:743-748 | the grant ceiling is transitive |
| Permissions.FoldUnionIsFaithful | internal/store/store.go:250-257 | merging without case loses nothing when no two permissions differ only in case |
| Permissions.FoldUnionKeepsFirsts | internal/store/users.go:689-741 | of permissions that differ only in case the first read is the one kept |
| Permissions.FoldedCheckIsEnough | internal/store/users.go:718-741 | a ceiling check on the merged list speaks for all permissions, at every ceiling, exactly when the kept ones grant the dropped ones |
| Permissions.CaseVariantSlips | internal/store/store.go:250-257 | of two case variants the second is dropped and slips under a ceiling that covers the first |
| Scopes.ParseHubScope | internal/store/access.go:55-58 | a parsed Hub scope is a positive 64-bit id |
| Scopes.HubScopeRoundTrip | internal/store/users.go:635-641 | the stored text of a Hub scope parses back to its id |
| Scopes.ParseExactly | internal/store/users.go:610-664 | Hub text reads as an id exactly when, blanks aside, it is its digits, possibly behind zeros and a plus |
| Scopes.ClauseExactly | internal/store/users.go:610-664 | a clause is stored exactly as a Hub id in decimal or as a trimmed department of at most 256 bytes |
| Scopes.NormalSettles | internal/store/users.go:610-664 | a stored binding sent back unchanged is accepted and stored as it was |
| Scopes.NormalizeRoleBindings | internal/store/users.go:610-664 | the nested loops accept exactly the well-formed bindings and return their canonical form |
| Rbac.EscalationNeedsAHolder | internal/store/users.go:337-469 | whoever's grants an authorised run changed had them changed in a step whose actor was active and globally granted that permission just before it |
| Rbac.StepChangesOnlyHeld | internal/store/users.go:668-687 | no authorised step gives or takes a permission its actor does not hold globally |
| Rbac.UnheldNeverMoves | internal/store/users.go:495-608 | a permission no active user holds globally stays exactly where it is, over any run |
| Rbac.AssignmentEscalatesExactly | internal/store/users.go:534-549 | an accepted assignment gives, in any mode and globally, only what the actor holds or the user had in that mode, exactly when the permissions of the roles it gives, none dropped, stay within those |
| Rbac.VariantEscalates | internal/store/users.go:689-741 | for any two case variants there is an accepted assignment that gives the user one which neither the user nor the actor had |
| Rbac.HubsReadEscalates | internal/store/users.go:689-741 | such variants are "hubs:read" and "Hubs:read" |
| Rbac.AnAdminRemains | internal/store/users.go:750-773 | an active user with a global wildcard role remains after every run, whoever acts |
| Rbac.SuperAdminIsFixed | internal/store/users.go:387-404 | the super_admin role keeps its key, system mark and exactly ["*"], and no other role takes its key, over any run |
| Rbac.RowsGrant | internal/store/users.go:689-716 | the queried list, in any row order, grants what the assigned roles grant |
| Rbac.StepWf | internal/store/users.go:337-608 | every step keeps foreign keys, unique role keys and fresh ids |
| RbacEffects.SaveStoresTheForm | internal/store/users.go:337-414 | an accepted save stores the trimmed form as a new role or in place of the old one, a system role keeping its key, and nothing else |
| RbacEffects.DeleteRemovesExactly | internal/store/users.go:424-469 | an accepted deletion takes the role and its assignments, and nothing else |
| RbacEffects.BindStoresTheForm | internal/store/users.go:495-608 | an accepted assignment leaves the user exactly the form's bindings, in their mode and stored clauses, and nothing else changed |
| RbacEffects.HoldsExactly | internal/store/users.go:668-741 | what an actor holds by the merged list is granted globally, and conversely unless permissions differ only in case |
| RbacEffects.NewRoleAcceptedExactly | internal/store/users.go:337-370 | a new role is accepted exactly when its fields keep their limits, the actor may write roles and holds all it grants, and its key is free |
| RbacEffects.ReplacedRoleAcceptedExactly | internal/store/users.go:371-414 | a role is replaced exactly when besides the actor holds what it granted, super_admin keeps "*", administrators remain and the key stays unique |
| RbacEffects.DeletionAcceptedExactly | internal/store/users.go:424-469 | a role is deleted exactly when it is no system role, the actor may and holds what it grants, and administrators remain |
| RbacEffects.AssignmentAcceptedExactly | internal/store/users.go:495-608 | an assignment is accepted exactly when the form is well formed, user, roles and Hubs exist, the actor holds what is taken and given, an old form meets no restricted binding, and an administrator remains |
| Rbac.RbacTables.CollectPermissions | internal/store/users.go:689-741 | the scan loops return the caseless union in row order |
| Rbac.RbacTables.SaveRole | internal/store/users.go:337-414 | the checks in order, with their errors, and the row written only when all pass |
| Rbac.RbacTables.DeleteRole | internal/store/users.go:424-469 | the checks in order, and the role deleted with its assignments only when all pass |
| Rbac.RbacTables.SetUserRoleBindings | internal/store/users.go:495-608 | the checks in order, and the user's bindings replaced as a whole only when all pass |
| Access.PredicateSelectsAllowedRows | internal/store/access.go:12-53 | the SQL predicate selects exactly the rows the pointwise check allows, with or without a Hub or department column |
| Access.PlaceholdersCountUp | internal/store/access.go:12-53 | placeholders read from left to right are firstArg, firstArg+1, ..., one per argument |
| Access.TargetAllowedExactly | internal/auth/auth.go:49-125 | a target is allowed exactly when the API key allows the permission and a global grant or a restricted binding that names the target does |
| Access.QueryReturnsExactlyTheEntitled | internal/store/users.go:40-118 | end to end, a list query returns exactly the rows the stored bindings and the API key entitle the caller to |
| Entitlements.AccessExactly | internal/store/users.go:40-118 | one target is allowed and one row returned exactly when the API key's list grants the permission, and a global binding or a restricted one whose stored clauses name the row's Hub and department does |
| Entitlements.GlobalGrantsExactly | internal/store/users.go:40-96 | what is granted globally comes from a global binding, and without case variants every permission of one counts |
| Access.FiltersAreStored | internal/store/users.go:97-118 | filters built from stored bindings have no empty group and no blank department |
| Access.HubDeletionWidensExactly | internal/store/hubs.go:332-340 | deleting a Hub gives a binding new targets exactly when its Hub clauses all named that Hub and a department clause is left |
| Access.AccessPredicate | internal/store/access.go:12-53 | the loop, its counter and its early exits build the specified predicate and arguments |
| Access.AllowsTarget | internal/auth/auth.go:69-102 | the loops with their matched flags decide the pointwise check |
| Access.BuildFilter | internal/auth/auth.go:49-67 | the loop over grants builds the specified filter |
| Access.PopulateGrants | internal/store/users.go:97-118 | the loops over bindings and clauses build the specified grants |
| OidcCache.DiscoveriesBalance | internal/auth/oidc_provider.go:75-149 | in every interleaving, discoveries started for a key equal its removals plus one if it is present |
| OidcCache.CacheSafety | internal/auth/oidc_provider.go:75-134 | no finished failure is kept, each ready channel closes once, and an answer is a provider of the caller's own key, unexpired or in flight at lookup |
| OidcCache.FailureRemovesOnlyItself | internal/auth/oidc_provider.go:107-123 | a failing discovery never removes a newer entry |
| OidcCache.OutcomeWrittenOnce | internal/auth/oidc_provider.go:107-123 | an entry's outcome, once written, is what every later reader sees |
| OidcEffects.GetJoinsOrStarts | internal/auth/oidc_provider.go:75-105 | a get joins the entry in flight or unexpired and starts nothing, else it starts exactly one discovery and waits on it |
| OidcEffects.GetDropsOnlyExpired | internal/auth/oidc_provider.go:136-149 | a get drops the other keys' entries exactly when they no longer serve |
| OidcEffects.DiscoveryEnds | internal/auth/oidc_provider.go:107-123 | a provider found is kept for ten minutes; a failure leaves no entry of its own |
| OidcEffects.ProviderServes | internal/auth/oidc_provider.go:75-123 | a provider answers every get until exactly ten minutes after it was found |
| OidcEffects.ReturnTells | internal/auth/oidc_provider.go:91-105 | a caller is told what came of the entry it waits for, once that is ready |
| OidcEffects.ForgetStartsAnew | internal/auth/oidc_provider.go:125-134 | after a forget the key no longer serves; other keys and waiting callers are untouched |
| OidcCache.Cache.GetLocked | internal/auth/oidc_provider.go:75-90 | evicts, joins the entry or starts one, and keeps the cache invariant |
| OidcCache.Cache.EvictExpiredLocked | internal/auth/oidc_provider.go:136-149 | the loop removes exactly the finished entries past their expiry |
| OidcCache.Cache.ResolveLocked | internal/auth/oidc_provider.go:107-123 | the locked part of a discovery, found or failed |
| OidcCache.Cache.Forget | internal/auth/oidc_provider.go:125-134 | drops the key and nothing else |
| Rollup.SettledBucketIsStable | internal/store/resource_usage.go:54-105 | a bucket whose samples all have in-window successors gets the same integrals from every window covering it |
| Rollup.LaterStartShifts | internal/store/resource_usage.go:62-79 | how much a later window start adds to a series' bucket: the lone last sample is credited the cap where it was credited its distance to the sample dropped |
| Rollup.LaterStartChangesExactly | internal/store/resource_usage.go:62-79 | a series' bucket, weighted or not, is the same from a later window start exactly when it has no lone sample there, or a weighted one of value zero |
| Rollup.LoneSampleExists | internal/store/resource_usage.go:62-79 | two samples half a minute apart suffice for that |
| Rollup.CoverageFitsTheSeries | internal/store/resource_usage.go:62-79 | successor-measured coverage never exceeds last minus first sample time |
| Rollup.LateSampleNeverLowersCoverage | internal/store/resource_usage.go:17-21 | a late sample between two others never lowers coverage |
| Rollup.BucketsAddUp | internal/store/resource_usage.go:40-53 | over a range of hours the buckets' integrals add up to the spans of all the range's samples |
| Rollup.CoverageIsTheSpans | internal/store/resource_usage.go:99-101 | what the buckets hold of a series, its last sample aside, is its coverage |
| Rollup.UnjoinedAddsNothing | internal/store/resource_usage.go:110-120 | the pairs the rollup's join and the usage view's leave out would add no seconds |
| Rollup.RuntimeIsConserved | internal/store/settings.go:1060-1076 | for both joins, summed over any buckets that cover the window, clipped session seconds equal the overlaps with the window |
| Rollup.StartCountedExactly | internal/store/settings.go:1060-1076 | a start is counted in its bucket unless the session ended the moment the bucket or window began |
| Rollup.HourlyPiece | internal/store/resource_usage.go:105-121 | an hourly piece lies in 0..3600 and is zero in the bucket at the end of the window |
| Rollup.InProgressHourExactly | internal/store/resource_usage.go:105-121 | the hour in progress gets a row exactly when a session that ran into it has ended since, and the row is all zero |
| Rollup.DerivedKeysAre | internal/store/resource_usage.go:121-150 | rows are written for exactly the hours a named user was sampled or ran in |
| Rollup.RerunChangesNothingExactly | internal/store/resource_usage.go:139-200 | a rerun over unchanged tables, at a clock not behind the watermark, changes nothing exactly when the first run did nothing, or its later start leaves no counted series a lone sample, but for one of value zero outside the CPU family |
| Rollup.RerunCanChangeARow | internal/store/resource_usage.go:169-200 | for every hour, counted metric and positive value, two samples on either side of the second start make a rerun in the same hour change a row |
| RollupColumns.IntegralIsTheQuery | internal/store/resource_usage.go:54-95 | what a series adds to an hour is the query's sum: over the selected samples of the hour, value times the seconds to the next selected sample, else from the one before, else and at most 150 |
| RollupColumns.SecondsAreTheQuery | internal/store/resource_usage.go:90-101 | the CPU, memory and GPU columns sum exactly the series of their own metric names, and coverage the CPU ones without their values |
| RollupColumns.OthersMakeNoDifference | internal/store/resource_usage.go:90-101 | series of other metrics make no difference to a sum |
| RollupColumns.PeaksAreTheQuery | internal/store/resource_usage.go:97-98 | the peaks are reached by, and at least, every sample of the hour of their metrics, zero without any |
| RollupColumns.SamplesAreCounted | internal/store/resource_usage.go:102-103 | the count is that of the hour's samples of all eight metric names |
| RollupColumns.RuntimeIsTheSeconds | internal/store/resource_usage.go:104-121 | runtime is the number of seconds of the hour and window in which the user's sessions ran |
| RollupColumns.NamesAreTheGreatest | internal/store/resource_usage.go:90-93 | network and department are the greatest of the row's samples in byte order, or blank |
| RollupColumns.RunStoresWhatItDerives | internal/store/resource_usage.go:139-163 | every figure of a derived row replaces the stored one, a blank network or department keeps it, no other row changes |
| RollupColumns.HoursDerivedExactly | internal/store/resource_usage.go:169-183 | a run derives exactly the hours from three before the watermark on, at most 45 days back, that are over |
| Rollup.UpsertAgainExactly | internal/store/resource_usage.go:139-163 | writing some of the keys again changes the table exactly when their rows changed |
| Rollup.TotalIgnoresLaterStartExactly | internal/store/resource_usage.go:90-105 | each consumption column and coverage never falls with a later start, and is unchanged exactly when every series that feeds it is so |
| Rollup.UsageIgnoresLaterStartExactly | internal/store/resource_usage.go:90-139 | a whole row is unchanged by a later start exactly when no series of its user and hub has a lone sample there, but for one of value zero outside the CPU family |
| Rollup.WatermarkAdvances | internal/store/resource_usage.go:169-200 | with a clock that never goes back the watermark never does, and never passes the hour begun |
| Rollup.StartReachesBackExactly | internal/store/resource_usage.go:174-183 | a run starts at or before the watermark exactly when it is within the backfill limit |
| Rollup.EveryHourIsDerived | internal/store/resource_usage.go:169-204 | every hour the watermark passes was derived by some run, if none comes more than the backfill limit late |
| Rollup.RollupTables.RollUpResourceUsage | internal/store/resource_usage.go:169-200 | the transaction upserts the derived rows and moves the watermark, or does nothing |
| WindowTable.Prune | internal/api/request_limiter.go:54-75 | below the maximum nothing changes; else expired windows go, then the oldest, down to one below the maximum |
| RequestLimiter.AtMostTwiceTheLimit | internal/api/request_limiter.go:39-52 | with a forward clock and room for the key, at most twice the limit is allowed in any half-open interval one window long |
| RequestLimiter.FirstOfTheWindowAreAllowed | internal/api/request_limiter.go:40-52 | in a key's window exactly the first limit requests of the key are allowed |
| RequestLimiter.TableStaysBounded | internal/api/request_limiter.go:54-75 | the table never exceeds its maximum |
| RequestLimiter.Limiter.Allow | internal/api/request_limiter.go:40-52 | prunes, counts the request in its window, and allows it within the limit |
| LoginLimiter.FailuresAreBounded | internal/api/login_limiter.go:54-97 | however handlers interleave, an entry's failures never exceed its limit less one plus the most attempts in flight at once |
| LoginLimiter.BlocksAtTheLimitExactly | internal/api/login_limiter.go:54-87 | within ten minutes a key blocks exactly when as many failures as its limit were reported under it |
| LoginLimiter.LimitsAre | internal/api/login_limiter.go:9-52 | eight failures per address and account, forty per address, sixteen per account |
| LoginLimiter.KeysTellApart | internal/api/login_limiter.go:32-42 | addresses are told apart up to blanks, accounts up to blanks and case |
| LoginLimiter.SuccessClearsExactly | internal/api/login_limiter.go:92-97 | a success clears the account's own windows and no other |
| LoginLimiter.TableStaysBounded | internal/api/login_limiter.go:99-118 | the table never exceeds its maximum plus two |
| LoginLimiter.SuccessKeepsTheAddress | internal/api/login_limiter.go:89-97 | a success leaves the address's own window as it was |
| LoginLimiter.Limiter.Allow | internal/api/login_limiter.go:54-72 | admits exactly when no live window of the three keys is full, sweeping expired ones on the way |
| LoginLimiter.Limiter.Failed | internal/api/login_limiter.go:74-87 | prunes and counts the failure under all three keys |
| LoginLimiter.Limiter.Succeeded | internal/api/login_limiter.go:92-97 | clears the pair and account windows only |
| LlmMetrics.AggregateSummarises | internal/store/metrics.go:56-140 | aggregation fails exactly when a key's total is out of range, and otherwise holds per key the sum, or maximum, and latest time of the accepted points |
| LlmMetrics.AggregateIgnoresOrder | internal/store/metrics.go:56-140 | acceptance, keys, sums, maxima and times do not depend on the order of the points |
| LlmMetrics.KeyTotalsAddUp | internal/store/metrics.go:141-158 | over the keys written the totals add up to the batch's |
| LlmMetrics.MergedSamplesFinalize | internal/store/metrics.go:196-223 | no merged sample fails at the write |
| LlmMetrics.SavingTwiceIsSavingOnce | internal/store/metrics.go:146-158 | saving a batch twice leaves what saving it once leaves |
| LlmMetrics.RowsDifferOnlyInNames | internal/store/metrics.go:118-131 | reordering a batch can change a row only in its hub and model columns |
| LlmMetrics.NamesIgnoreOrderExactly | internal/store/metrics.go:126-131 | those columns are the same in every order exactly when the key's points spell them alike |
| LlmRows.SavedRowsExactly | internal/store/metrics.go:141-158 | a saved batch leaves one row per key it has points for, named by the first of them and filled from all, and no other row changed; each metric name fills its own column, calls split by status, counts rounded to the nearest |
| LlmRows.SameRowExactly | internal/store/metrics.go:108-112 | two points share a row exactly when minute, user, pod and, blanks aside, the labels kept agree |
| LlmRows.AcceptedExactly | internal/store/metrics.go:57-87 | which points count: with a path to watch, by their path, and by their route only without one |
| LlmRows.SaveRefusedExactly | internal/store/metrics.go:27-55 | a batch is refused exactly when the feature is on and a summed row overflows; with the feature off nothing is written |
| LlmMetrics.JoinIsInjective | internal/store/metrics.go:267-274 | without NUL in the dimensions equal fingerprints mean equal dimensions |
| LlmMetrics.LlmTable.SaveLLMMetricPoints | internal/store/metrics.go:27-158 | the loops write the specified rows, or nothing when the merge fails |
| Nonce.EveryScriptIsTagged | internal/analytics/analytics.go:206-231 | in the output every "<script" has "nonce=" before its next ">" |
| Nonce.WithNonceIsIdempotent | internal/analytics/analytics.go:206-231 | rewriting twice is rewriting once |
| Nonce.OnlyInsertions | internal/analytics/analytics.go:206-231 | the output is the snippet with attributes inserted right after some "<script"s: the same pieces without them are the snippet |
| Nonce.AttributeHasNonce | internal/analytics/analytics.go:225-228 | the inserted attribute carries "nonce=" before anything that could close the tag |
| Nonce.AttributeGivesTheNonce | internal/analytics/analytics.go:225-228 | the attribute's quoted value, read as a browser reads it, is the nonce as given |
| Nonce.Escape | internal/analytics/analytics.go:227-227 | an escaped nonce can neither open nor close a tag nor end the quoted value |
| Nonce.AddNonces | internal/analytics/analytics.go:208-231 | the loop over the remaining text computes the rewriting |

## Left out

- HubEffects.HealthIsStored: does not model the replacement of invalid UTF-8 in an error text; texts are taken to be valid.
- The web front end, page rendering, event streams, HTTP clients and proxies, URL validation (a flag of the Hub form), mail, search, sorting, configuration loading.
- Cryptography, and PostgreSQL itself: transactions are atomic, locks and the partial unique index work, foreign keys cascade or null as declared.
- Unicode folding and trimming, and the differences between Go's and SQL's: one ASCII normalisation serves both. `withNonce` is modelled for ASCII snippets.
- Floating point: metric values are reals, so rounding at the end of the bigint range and NaN are not modelled.
- Server columns that no proof needs (URL, node, pod, image, usage figures), raw JSON snapshots, audit rows, timestamps of writes.
- OIDC cache entries are ids into an explicit table instead of heap references, and the discovery request is an event; the uncached fallback of a nil cache is not modelled.
- Row locks that a sync takes on single servers; the shared lock on the features row is modelled as exclusive, which only adds waits.
- `canonicalSettingKeys` (sorting and deduplication of the key list); the key list is a parameter.
- `updatePods` and `saveMetricPoints` beyond their guard and locks: which server a pod is matched to is settled by reading one query.
- The reports over the hourly table (`observedRatio`, grouping, limits): sums of what the rollup wrote.
- Time zones and daylight saving in day, week and month buckets: bucket boundaries are any nondecreasing sequence.
- Sample series are given per partition and in time order, ties in some order, as the window clause leaves them.
- NUL in role, setting and label texts, which the database refuses: those writes fail and change nothing.
- OIDC sign-up, which gives a new user the default role without an actor, and API key creation.
- Login handlers that never report back stay in flight; this only loosens the bound.
