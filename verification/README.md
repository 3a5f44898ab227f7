# DaaS Engine: verified control-plane models

Dafny models of the parts of DaaS Engine that carry state or arithmetic, with proofs of what they promise. Verify with
`dafny verify dfyconfig.toml` (Dafny 4.11).

| files | what they model |
|---|---|
| `OAuth*.dfy` | authorization codes, grants and refresh-token rotation as committed transactions that interleave freely with each other, with membership changes, a clock and retention; `OAuthSync.dfy` and `OAuthPurge*.dfy` compare runs with and without a retention step, `OAuthOutcomes.dfy` says what each transaction gives and takes |
| `Reconcile*.dfy` | restrictive reconciliation of a restored database with a newer snapshot: the plan, and the statements that apply it under foreign and unique keys |
| `Executor*.dfy`, `JobBus.dfy` | the in-process job executor as a step system with crashes and restarts, and what becomes of each job; limits on event streams |
| `Tenancy.dfy` | the least-recently-used registry of tenant runners |
| `RateLimit.dfy`, `RateLimiter.dfy` | token buckets over real time, and the pruned table |
| `Strings.dfy`, `Numbers.dfy`, `DecimalMark.dfy`, `NumberTheorems.dfy`, `NumberForms.dfy`, `Money.dfy` | the number parser and the printer of amounts |
| `XmlScan.dfy` | the chunked scan of XML parts |
| `Schedule.dfy`, `Reminders.dfy` | the weekly slot in any time zone, and claiming it |
| `Audit.dfy`, `Ulid.dfy` | keyset pagination, and sortable identifiers |

State machines are written twice: as functions on values, on which the theorems about all runs are proved, and as classes
whose methods follow the program's statements and are proved equal to those functions. The guarded OAuth transactions take
the result of the earlier unlocked lookup as free arguments, so every interleaving between lookup and transaction is
covered. Rows of the reconciled tables are one map from keys to rows of thirteen kinds.

## Where the program does less than it says

- Retention deletes an exchanged code a day after it expires while its grant lives on. A second presentation of the code is
  then still refused but no longer revokes the family. `OAuthPurge.PurgeSparesGrantsIffSilent` gives the exact condition for
  grants that existed by then, over all continuations. For grants issued later there is one more effect: retention deletes
  clients that nothing refers to, and their requests fail from then on. Without a further retention step the exact condition
  is that no such client is deleted either (`OAuthPurgeClients.PurgeInvisibleIff`); with one, a difference that is
  harmless for all tokens can still let it delete a client on one side only (`OAuthPurgeCases.LaterRetentionShows`), and
  `OAuthPurge.PurgeInvisibleIffSilent` covers the continuations whose requests come from clients known on both sides.
- A job submitted twice can leave a terminal state: a task that fails before its claim records the failure on the job that
  the other task runs, and the final update of that other task (app/control/executor.py:266) has no condition on the
  status. `ExecutorTheorems.TerminalMovesIff` and `ExecutorTheorems.OwnersRunningIff` say exactly when; with single submission
  it cannot happen, and the repository's own callers (app/api/v1/jobs.py:111, app/control/executor.py:167) submit a job once.
- Saving a schedule reads the clock (app/api/v1/schedule.py:83) before it loads the row (:84), and writes the slot only where it
  differs from the loaded one. If a slot is claimed between the two reads, the save stores it again, and its reminder goes out
  twice. A claim between the load and the commit is harmless for an unchanged schedule; with a changed one the save can store a
  slot before the claimed one, so that reminders go out of order. `Reminders.InOrderIff` gives the exact condition.
- The scan of shared strings misses a tag longer than 65 bytes when a chunk ends just before its last byte, so its count is a
  lower bound in general (`XmlScan.CountedWheneverShort`).

## Model

| member | source | states |
|---|---|---|
| OAuth.GrantableScopes | app/control/oauth.py:148-151 | The grantable scopes are exactly the requested ones that the role may grant; without a membership there are none. |
| OAuth.Dedupe | app/control/oauth.py:154-155 | Exactly the same values, each once. |
| OAuth.GrantableInOrder | app/control/oauth.py:148-151 | The order of the request is kept and no repetition is lost: filtering distributes over concatenation. |
| OAuth.DedupeInOrder | app/control/oauth.py:154-155 | First occurrences stay in their order. |
| OAuthInvariant.NextInv | app/control/oauth.py:201-661 | One inductive invariant of the tables and their history is kept by every transaction, by every membership, organization, user and client change, by the clock and by retention. |
| OAuthInvariant.RunInv | app/control/oauth.py:201-661 | The same over every finite interleaving of those steps. |
| OAuthInvariant.RotationIsNeverLost | app/control/oauth.py:569-577 | A remark on the transaction in any tables: what classifies as usable meets the condition of the rotating UPDATE, so the "lost the rotation" branch is unreachable. |
| OAuthInvariant.UsableFacts | app/control/oauth.py:520-546 | A usable refresh token is the only open one of its unrevoked grant, belongs to the client, and carries the grant's scopes. |
| OAuthInvariant.PresentCodeIs | app/control/oauth.py:412-426 | Presenting a code again revokes the one grant that its exchange created, or nothing; the lookup through the parent link never reaches another family. |
| OAuthInvariant.OldGrantIsDead | app/control/oauth.py:239-249 | What retention treats as an old grant has no live token, because of the bounds on token lifetimes and the 30 days of retention. |
| OAuthInvariant.LiveIsRecent | app/control/oauth.py:239-249 | A grant with a live token has a refresh token inside the retention window and is not revoked. |
| OAuthInvariant.PurgeInv | app/control/oauth.py:235-259 | Retention keeps the invariant, the completeness of the refresh history of live grants included. |
| OAuthTheorems.OneRefreshPerGrant | app/control/oauth.py:459-475 | In every reachable state an unrevoked grant has at most one open refresh token, and every live access token of it has that refresh token as its parent. |
| OAuthTheorems.LiveGrantKeepsHistory | app/control/oauth.py:235-259 | A grant with a usable token still stores every refresh token it ever issued, over any number of purges. |
| OAuthTheorems.RowEvolvesRun | app/control/oauth.py:168-222 | Over every run a stored token keeps its identity, and its revocation and rotation are never undone; a purged one never comes back. |
| OAuthTheorems.HopelessRefuses | app/control/oauth.py:630-661 | A grant without a hopeful token is accepted neither as an access token nor for a refresh, and no refresh under it issues anything. |
| OAuthTheorems.HopelessStays | app/control/oauth.py:201-222 | No later step of any run makes such a grant usable again. |
| OAuthTheorems.RevokedForever | app/control/oauth.py:201-222 | Once a grant is revoked or gone, no continuation issues or accepts one of its tokens. |
| OAuthTheorems.ReplayRevokes | app/control/oauth.py:520-546 | A rotated refresh token presented at load or at exchange is refused with `invalid_grant`, and grant and all tokens are revoked with the reason `reuse_detected`. |
| OAuthTheorems.ReplayKillsFamily | app/control/oauth.py:490-546 | A replay of a token rotated at any earlier point, with any run before and after the replay, leaves the family unusable for good. |
| OAuthTheorems.LoserEndsTheFamily | app/control/oauth.py:548-589 | Of two concurrent refreshes with one token the second ends the family: the winner's new pair is refused too. |
| OAuthTheorems.CodeIsSpent | app/control/oauth.py:428-457 | An exchanged code issues nothing again, in whatever state of the tables. |
| OAuthTheorems.CodeYieldsOneGrant | app/control/oauth.py:428-457 | Over all runs a code yields at most one grant. |
| OAuthTheorems.ReplayFindsGrant | app/control/oauth.py:412-426 | The parent link leads from a stored exchanged code to exactly its grant, as long as that grant is not dead. |
| OAuthTheorems.CodeReplayKillsFamily | app/control/oauth.py:388-426 | Presenting a code again, with anything between lookup and revocation and anything afterwards, ends in an unusable family. |
| OAuthTheorems.ScopesWithin | app/control/oauth.py:630-661 | An accepted principal's scopes lie within the token's, the grant's and the current role's; refresh tokens carry the grant's scopes. |
| OAuthTheorems.GrantScopesFixed | app/control/oauth.py:459-475 | No run changes the scopes of a grant, so the two previous bounds hold along every rotation chain. |
| OAuthTheorems.LegacyTokensRefused | app/control/oauth.py:630-661 | A token without a grant is never accepted. |
| OAuthOutcomes.AccessAcceptedIff | app/control/oauth.py:630-661 | In a reachable state an access token is accepted exactly as long as its row is unrevoked and unexpired, its client is not revoked and its user a member; the grant decides nothing more. |
| OAuthOutcomes.RefreshAcceptedIff | app/control/oauth.py:520-546 | A refresh is let through exactly for the open, unexpired refresh token of the client whose user is a member. |
| OAuthOutcomes.PrincipalIs | app/control/oauth.py:630-661 | The principal has exactly the scopes that token and current role share. |
| OAuthOutcomes.RefreshOutcomeIs | app/control/oauth.py:559-568 | `invalid_grant`, `invalid_scope` and a new pair each exactly when: the token is refused, it is accepted but a requested scope lies outside its own, or neither; a refused scope changes nothing. |
| OAuthOutcomes.RefreshedScopes | app/control/oauth.py:566-584 | The new access token has exactly the requested scopes, all of the presented token's when none are requested; the new refresh token has all of them. |
| OAuthOutcomes.RefreshServes | app/control/oauth.py:559-589 | After a refresh the new pair is accepted until its lifetimes end and no longer, and the old refresh token and its access tokens are refused at once. |
| OAuthOutcomes.LoadOnlyReads | app/control/oauth.py:490-513 | Loading an accepted refresh token changes no decision about any token. |
| OAuthOutcomes.AccessRevoked | app/control/oauth.py:600-625 | A client that revokes its access token loses that token at once; every other row and decision stays. |
| OAuthOutcomes.RefreshRevoked | app/control/oauth.py:600-619 | A client that revokes a refresh token ends the grant with the reason `client_revoked`: all its tokens are refused, and no other token is touched. |
| OAuthOutcomes.OthersNotRevoked | app/control/oauth.py:600-615 | A token of another client or another grant is left alone. |
| OAuthOutcomes.RevokedStaysOut | app/control/oauth.py:600-625 | After any run what a client has revoked is still refused: the access token, or the whole grant. |
| OAuthOutcomes.LoadRevokesIff | app/control/oauth.py:520-546 | Presenting a refresh token revokes its unrevoked grant if and only if the token was rotated before, or is unexpired and its user has left. |
| OAuthOutcomes.PresentedCodeRevokes | app/control/oauth.py:412-426 | A code presented again revokes the family it finds with the reason `code_replay`, and changes no decision about any other grant. |
| OAuthOutcomes.RevokedGrantLeaves | app/control/oauth.py:201-222 | Revoking a grant takes all its tokens, keeps the first reason, and changes no other decision. |
| OAuthOutcomes.NonMemberRefused | app/control/oauth.py:520-546 | Without a membership an access token is refused, and the next use of the refresh token ends the family with the reason `membership_ended`. |
| OAuthOutcomes.LeaverStaysOut | app/control/oauth.py:520-546 | That is so after any later run, even if the user becomes a member again. |
| OAuthOutcomes.RevokedClientStaysOut | app/control/oauth.py:630-661 | No run brings an access token of a revoked client back. |
| OAuthOutcomes.DeletedUserStaysOut | app/control/oauth.py:630-661 | Nor any token of a deleted user, even if the identifier returns. |
| OAuthOutcomes.ConsentIssuesIff | app/control/oauth.py:428-457 | A request, a consent and an exchange yield tokens exactly if the client is registered, the consent is in time and comes from a member who gives at least one scope within the role, and the exchange follows within 60 s while organization and user exist. |
| OAuthOutcomes.ConsentServes | app/control/oauth.py:428-475 | Both tokens then carry exactly the scopes that were requested, wanted and within the role, and are accepted for exactly their lifetimes. |
| OAuthOutcomes.DeniedNeverIssues | app/control/oauth.py:428-457 | A request denied in time never yields tokens, after any run. |
| OAuthOutcomes.RetentionTidies | app/control/oauth.py:235-259 | After retention nothing is stored beyond its time: codes, access tokens, refresh tokens of ended grants, grants without tokens, idle clients. |
| OAuthOutcomes.RetentionKeeps | app/control/oauth.py:235-259 | Nothing is deleted before its time: codes for a day past their end, live tokens, young clients. |
| OAuthSync.AlikeNext | app/control/oauth.py:201-661 | Two databases that agree about a set of grants, each with its own history, still agree about them after any step that both can take; their other grants, codes and clients may differ in any way. |
| OAuthSync.AlikeRun | app/control/oauth.py:201-661 | After any run that both can take they give the same answer about every token of these grants. |
| OAuthPurge.PurgeSparesGrantsIffSilent | app/control/oauth.py:235-259 | About the grants that have ever existed, retention changes no answer in any continuation that is possible with and without it, further retention included, if and only if no code it deletes leads to a grant that can still be used. |
| OAuthPurge.SimNext | app/control/oauth.py:235-259 | Two databases that differ by purged rows stay related, new grants included, under every step in which a request comes from a client that is registered on both sides or on neither. |
| OAuthPurge.SimRun | app/control/oauth.py:235-259 | After any continuation with such requests the two take the same token decisions. |
| OAuthPurge.PurgeInvisibleIffSilent | app/control/oauth.py:235-259 | About all grants, later ones included, the same condition is exact for the continuations in which requests come from clients registered on both sides or on neither. |
| OAuthPurgeClients.PurgeInvisibleIff | app/control/oauth.py:235-259 | About all grants and in every continuation without a further retention step that is possible with and without this one, retention is invisible if and only if it deletes no client and no code that leads to a grant that can still be used. |
| OAuthPurgeClients.ClientIsMissed | app/control/oauth.py:250-259 | A client registered on one side only is noticed by a run of requests of that client, whatever else the two sides hold. |
| OAuthPurge.PurgeIsNoticed | app/control/oauth.py:235-238 | If retention deletes a code whose family lives, a continuation is given on which the answers about that family differ. |
| OAuthPurgeCases.PurgeCanBeNoticed | app/control/oauth.py:235-238 | Such a state is reachable from the empty database: a code exchanged a day ago whose grant lives on. |
| OAuthPurgeCases.ClientPurgeShows | app/control/oauth.py:250-259 | A reachable state in which retention is silent about codes and deletes a client: asking, consenting and exchanging afterwards is served only without it. |
| OAuthPurgeCases.LaterRetentionShows | app/control/oauth.py:235-259 | A reachable state in which retention deletes no client and is silent, and a continuation with a second retention step that still tells: the second step deletes a client on one side only. |
| OAuthStore.Store.GuardGrant | app/control/oauth.py:189-198 | The guard bumps the lock counter of an existing grant and reports whether there was one; nothing else changes. |
| OAuthStore.Store.RevokeGuardedGrant | app/control/oauth.py:201-222 | The grant and its unrevoked tokens become revoked; first times and reasons stay. |
| OAuthStore.Store.UsableRefresh | app/control/oauth.py:520-546 | Returns the specified verdict and commits exactly the revocation it calls for. |
| OAuthStore.Store.LoadRefreshToken | app/control/oauth.py:490-513 | Is the specified transaction, and finds the token exactly when it would be accepted. |
| OAuthStore.Store.ExchangeRefreshToken | app/control/oauth.py:548-589 | Is the specified transaction with its outcome, rollback on wider scopes included. |
| OAuthStore.Store.RevokeTokenRequest | app/control/oauth.py:600-628 | A refresh token takes its whole grant along, an access token only itself, another client's token nothing. |
| OAuthStore.Store.ExchangeAuthorizationCode | app/control/oauth.py:428-457 | Is the specified transaction with its outcome, for spent, expired and orphaned codes too. |
| OAuthStore.Store.RevokeCodeFamily | app/control/oauth.py:412-426 | The loop over the looked-up grants is the joint revocation of the family. |
| OAuthStore.Store.PurgeExpired | app/control/oauth.py:235-259 | The DELETE statements in their order are the specified retention step. |
| OAuthStore.RevokeOneMore | app/control/oauth.py:412-426 | Revoking families one at a time is revoking them together. |
| ReconcilePlan.FindConflicts | app/control/restore_reconcile.py:185-196 | The blocked organizations are exactly those without an owner who was owner in the snapshot and still exists; the candidates are exactly the members who may resolve them. |
| ReconcilePlan.Plan | app/control/restore_reconcile.py:178-290 | The plan is refused exactly for a foreign history, an invalid resolution or an unknown role; otherwise it holds exactly one action for each row whose verdict is not to keep it. |
| ReconcileTheorems.MeetSurvival | app/control/restore_reconcile.py:203-290 | A row survives exactly when the snapshot still has it (for an invitation: pending) and everything it belongs to survives, deletion cascades included. |
| ReconcileTheorems.SurvivorMeets | app/control/restore_reconcile.py:211-290 | A surviving row is the meet of the two: the lower role unless resolved, a switch on only if on in both, revoked if it, its client or its grant was revoked or missing, addresses of the snapshot. |
| ReconcileTheorems.OnlyRestricts | app/control/restore_reconcile.py:211-290 | Nothing is gained: rows exist on both sides, roles are at most the snapshot's and at most the restored ones unless resolved, reminder, notification and auto-run are on only if on in both, credentials are unrevoked only if they and what they hang on are unrevoked in the snapshot, and no queued job had already ended. |
| ReconcileTheorems.OwnersRemain | app/control/restore_reconcile.py:183-209 | Every surviving organization has a surviving owner who was owner in the snapshot. |
| ReconcileTheorems.NoConflictLeft | app/control/restore_reconcile.py:183-209 | No organization is in conflict afterwards. |
| ReconcileTheorems.ReconciledIsValid | app/control/restore_reconcile.py:378-394 | The result has well-typed rows and intact foreign keys. |
| ReconcileTheorems.Idempotent | app/control/restore_reconcile.py:178-290 | Planning again with the same snapshot and clock is accepted, blocks nothing, has no action and changes nothing. |
| ReconcileApply.Database.DeleteRow | app/control/restore_reconcile.py:384-388 | A DELETE removes the row and exactly what hangs under it; types, foreign and unique keys hold afterwards. |
| ReconcileApply.Database.PlacePlaceholders | app/control/restore_reconcile.py:378-383 | Every e-mail and URL to be replaced holds a placeholder afterwards, and all constraints hold after each of the updates. |
| ReconcileApply.Database.RunDeletes | app/control/restore_reconcile.py:384-388 | The deletes leave exactly the surviving rows, and all constraints hold after each statement. |
| ReconcileApply.Database.RunUpdates | app/control/restore_reconcile.py:384-394 | The updates end in the declarative result, with `users.email` and webhook `(org_id, url)` unique after each statement, whatever permutation of addresses the snapshot holds. |
| ReconcileApply.Database.RestoreReconcile | app/control/restore_reconcile.py:329-394 | Placeholders, deletes and updates together are the declarative meet; a refused or blocked plan, or one that is not applied, changes nothing; a database with an organization keeps one. |
| ReconcileApply.MixedConstraints | app/control/restore_reconcile.py:378-394 | Every state between the updates keeps types, foreign keys and unique keys. |
| ReconcileTheorems.OrgSurvives | app/control/restore_reconcile.py:178-209 | The organizations that survive are exactly those in both databases. |
| ReconcileTheorems.OrganizationsRemain | app/control/restore_reconcile.py:178-181 | A database that had an organization is never emptied: a snapshot of another history is refused. |
| ReconcileTheorems.RaisedOnlyInConflict | app/control/restore_reconcile.py:192-209 | A member's role is raised only to owner, only for an owner of the snapshot, and only in an organization that would be left without one; no unknown role survives. |
| ExecutorInvariant.NextInv | app/control/executor.py:151-330 | Locks, semaphore, claims, starts, progress and usage keep one inductive invariant under every step, crashes, stops, restarts, double submissions and late callbacks included. |
| ExecutorInvariant.RunInv | app/control/executor.py:151-330 | The same over every run. |
| ExecutorTheorems.RunsAreBounded | app/control/executor.py:187-199 | At most one observed pipeline per organization and at most the configured number in all; `running_now` counts them and the registry marks exactly their organizations. Threads whose task a stop has cancelled run on uncounted, also after a restart. |
| ExecutorTheorems.PipelineStartsOnce | app/control/executor.py:200-209 | A pipeline is started at most once per job over every run, and never for a job that ends cancelled. |
| ExecutorTheorems.TerminalMovesIff | app/control/executor.py:266-269 | A step changes the status of a finished job exactly when it is the final update of a successful task whose job was marked failed meanwhile. |
| ExecutorTheorems.SuccessIsFinal | app/control/executor.py:315-330 | Success and cancellation are final in every run. |
| ExecutorTheorems.OwnersRunningIff | app/control/executor.py:187-198 | Tasks own running jobs until, and only until, a crashed task records its failure on a job that another task has claimed. |
| ExecutorTheorems.TerminalIsFinal | app/control/executor.py:187-330 | If no job is submitted while it still has a task, every finished job keeps its status for ever. |
| ExecutorTheorems.SingleSubmissionRun | app/control/executor.py:180-185 | That single submission keeps the conditions of the previous row in every reachable state. |
| ExecutorTheorems.FailedJobCanSucceed | app/control/executor.py:187-269 | A reachable state and a continuation in which a doubly submitted job goes from failed to succeeded. |
| ExecutorTheorems.ProgressNeverDrops | app/control/executor.py:315-322 | Progress never goes back over any run, late callbacks and restarts included, and stays a percentage. |
| ExecutorTheorems.UsageIsSuccesses | app/control/executor.py:256-269 | The usage counter of an organization is the number of its succeeded jobs in every reachable state. |
| ExecutorTheorems.StartRecovers | app/control/executor.py:151-167 | After a restart nothing is running, what was running failed, every queued job waits with exactly one task, and all else is unchanged. |
| ExecutorTheorems.TasksCanDrain | app/control/executor.py:187-199 | From every reachable state the tasks alone can go on until all are done: organization locks and semaphore never deadlock. |
| ExecutorOutcomes.StatusMoves | app/control/executor.py:151-330 | The life of a job row: which steps, and no others, make it running, succeeded, failed or cancelled. |
| ExecutorOutcomes.CommitLeaves | app/control/executor.py:250-269 | After the final update the job is succeeded if the pipeline was and failed otherwise, at 100 percent; usage grows by one for a success only. |
| ExecutorOutcomes.ProgressMoves | app/control/executor.py:203-330 | Progress is 5 after the claim, the larger of stored and reported while running, and 100 after every end but an abandonment. |
| ExecutorOutcomes.CancelledNeverStarts | app/control/executor.py:200-209 | A cancelled queued job stays cancelled and its pipeline is not started, before or after, in any run. |
| ExecutorOutcomes.ServedIff | app/control/executor.py:151-198 | A job that has ended or has a task attending to it stays so under every step, except exactly the end of the process and the loss of its last task. |
| ExecutorOutcomes.SubmittedJobEnds | app/control/executor.py:180-330 | Over every run without those steps a submitted job is attended to until it has ended: no running or queued job is left behind when its tasks are gone. |
| ExecutorOutcomes.ServedJobCanEnd | app/control/executor.py:187-269 | From every reachable state the steps of tasks alone bring such a job to its end. |
| ExecutorOutcomes.RestartForgetsNothing | app/control/executor.py:151-167 | After a restart every job there is has ended or can be brought to its end. |
| ExecutorObject.JobExecutor.Submit | app/control/executor.py:180-185 | Is one submission step; the task's name is new. |
| ExecutorObject.JobExecutor.AcquireLock | app/control/executor.py:191-192 | Goes on exactly when nobody holds the lock of the organization. |
| ExecutorObject.JobExecutor.ClaimJob | app/control/executor.py:203-208 | Is the conditional claim: without a queued row the task ends and gives everything back. |
| ExecutorObject.JobExecutor.CommitResult | app/control/executor.py:256-274 | Usage and job row change together, whatever the row's status was. |
| ExecutorObject.JobExecutor.Raise | app/control/executor.py:187-197 | An exception in any phase gives back the registry's mark, lock and slot before the failure is recorded. |
| ExecutorObject.JobExecutor.Progress | app/control/executor.py:315-322 | Is the conditional progress update of a running job. |
| ExecutorObject.JobExecutor.Start | app/control/executor.py:151-167 | The update and the loop over the queued jobs are one recovery step. |
| ExecutorObject.JobExecutor.Stop | app/control/executor.py:169-177 | All tasks are gone and all locks and slots free; running pipelines go on unobserved. |
| JobBus.Bus.OpenStream | app/control/executor.py:99-104 | A slot is refused exactly when the subject or the server is at its limit, and otherwise is new and open. |
| JobBus.Bus.ActiveStreams | app/control/executor.py:95-97 | The sum of the counters is the number of slots handed out and not released. |
| JobBus.StreamSlot.Release | app/control/executor.py:61-64 | Any number of calls gives the place back once. |
| Tenancy.TenantRegistry.EvictOverLimit | app/control/tenancy.py:127-135 | The loop over the snapshot leaves exactly the specified survivors, in use order, and counts the evictions. |
| Tenancy.TenantRegistry.Get | app/control/tenancy.py:106-122 | A matching runner is returned and becomes the most recently used; otherwise a new one is built and put last, and only then entries are evicted. |
| Tenancy.RebuildKeeps | app/control/tenancy.py:112-135 | The new runner and every tenant in use stay; at most the limit remains or only protected entries do; no more is evicted than the excess. |
| Tenancy.EvictedLongerIdle | app/control/tenancy.py:127-135 | Whatever is evicted was used longer ago than every idle tenant that stays. |
| Tenancy.OldestGoFirst | app/control/tenancy.py:127-135 | An evicted entry stands before every unprotected survivor. |
| RateLimit.RateBound | app/core/ratelimit.py:47-79 | In every window of every trace of the limiter with its drops and evictions, a key with a fixed limit n is let through at most n times plus n per minute of the window, if its own bucket is not evicted by an overflow inside the window; whatever happens to other keys or before. |
| RateLimit.WaitIsExact | app/core/ratelimit.py:60-64 | After a refusal the next hit is admitted if and only if at least the returned time has passed. |
| RateLimit.BurstIsTheLimit | app/core/ratelimit.py:53-64 | A key without a bucket can hit exactly its limit of times at one instant. |
| RateLimit.RefusalsLeaveNoTrace | app/core/ratelimit.py:53-64 | In a table without a bound a refused hit can be taken out of a trace without changing any later answer. |
| RateLimit.LimiterForgetsRefusals | app/core/ratelimit.py:53-79 | In the bounded limiter too: taking a refused hit out of a trace without overflow evictions brings about none, and changes no later answer. |
| RateLimit.TurnsWithoutOverflow | app/core/ratelimit.py:70-79 | A run of the limiter on a trace without overflow evictions gives exactly the answers that the next row is about: its turns drop just the idle buckets. |
| RateLimit.PruningIsInvisible | app/core/ratelimit.py:53-79 | While no bucket is evicted before its time, the limiter that drops buckets idle for 60 s answers every trace as one with an unbounded table, also when limits change between hits. |
| RateLimit.EarnedIsRate | app/core/ratelimit.py:52-59 | What elapsed time adds is the product of time and rate that the program computes. |
| RateLimiterObject.RateLimiter.Hit | app/core/ratelimit.py:47-64 | Is one turn of the limiter: drops by `_prune` only for a new key in a full table, then the specified hit; with a positive maximum the table never exceeds it; a limit of zero or less admits without a trace. |
| RateLimiterObject.RateLimiter.Prune | app/core/ratelimit.py:70-79 | Below the maximum nothing happens; idle buckets go first, and only a table still full loses its oldest tenth, one at least. |
| NumberTheorems.FastPathAgrees | app/sources/csv_mapper.py:173-197 | Every string the fast path takes has the same value and no flag on the general path. |
| NumberTheorems.ParseIsGeneral | app/sources/csv_mapper.py:165-197 | Behind its guards the parser is the general path. |
| NumberTheorems.ValueIsItsDigits | app/sources/csv_mapper.py:115-197 | Every accepted number outside scientific notation is the integer spelled by all digits of the cell in order, over ten to the length of the fraction of the number in it, and is negative exactly for a minus sign or accounting parentheses. |
| DecimalMark.FractionIs | app/sources/csv_mapper.py:115-133 | The fraction that is split off has the length the rule gives: the digits behind the last mark, or none if there is no mark, or one kind of mark more than once. |
| NumberTheorems.FractionInTheCell | app/sources/csv_mapper.py:115-197 | Said of the cell alone, whatever signs, affixes, white space and parentheses surround the number: its fraction is empty or all the digits behind the last mark that has a digit behind it. |
| NumberForms.FlagIs | app/sources/csv_mapper.py:115-142 | The flag of an accepted number is exactly what its numeral calls for: ambiguous for one to three digits without a leading zero, a mark and three digits; dot thousands for several dots and no comma; none otherwise. |
| NumberForms.PossibleThousand | app/sources/csv_mapper.py:129-134 | `1,299` and its like are read as a fraction and always flagged ambiguous. |
| NumberForms.NoValueIs | app/sources/csv_mapper.py:158-172 | Without a value the flag is invalid, except for an empty or null cell, which has none; more than 64 characters have no value. |
| NumberForms.AcceptedIff | app/sources/csv_mapper.py:115-152 | A numeral is accepted exactly if it is digits, or groups of three with one kind of separator, with at most one decimal mark that does not group. |
| NumberForms.AcceptedIsWellFormed | app/sources/csv_mapper.py:115-197 | Every accepted number outside scientific notation has such a numeral. |
| NumberForms.BareAcceptedIff | app/sources/csv_mapper.py:185-197 | A sign and a bare numeral are accepted exactly if the numeral is well formed. |
| NumberForms.ParenthesesNegate | app/sources/csv_mapper.py:101-107 | Accounting parentheses around an unsigned number, with affixes behind, negate what is read, flag included. |
| NumberForms.MinusSign | app/sources/csv_mapper.py:176-176 | The typographic minus is a minus. |
| NumberForms.AffixesAreIgnored | app/sources/csv_mapper.py:80-88 | Currencies and units behind a number do not change how it is read. |
| NumberForms.SciReads | app/sources/csv_mapper.py:177-179 | Scientific notation is read as sign, mantissa and power of ten, without a flag, unless it is too large. |
| NumberTheorems.MatchKeeps | app/sources/csv_mapper.py:85-88 | A match of the number pattern keeps all digits in the number, and its sign is the only minus. |
| Money.RoundTrip | app/sources/csv_mapper.py:115-197 | Every amount in whole cents that fits a cell, grouped with spaces, dots or commas and with the other mark before the cents, parses to itself without a flag. |
| Money.PlnRoundTrip | app/reporting/fmt.py:12-22 | What the reports print is read back exactly and without a flag. |
| Money.PlnShape | app/reporting/fmt.py:12-22 | A printed amount is a minus for a negative one only, a whole part without leading zeros in groups of three with spaces, a comma and two digits. |
| XmlScan.Scan | app/core/xlsx_import.py:90-117 | The loop accepts exactly when the first chunk has no byte order mark, the whole content no forbidden marker and, for shared strings, size and counted tags are within the limits; the kind of rejection is right. |
| XmlScan.CountTags | app/core/xlsx_import.py:113-113 | Searching on behind each match counts exactly the tags of the window that end behind the carry. |
| XmlScan.TagAtIff | app/core/xlsx_import.py:60-60 | A tag is at a place exactly if an opening bracket, an optional prefix with a colon, the name and one of the ending bytes are there. |
| XmlScan.CountedSize | app/core/xlsx_import.py:113-117 | Counted tags are never more than there are, and all of them when every tag is at most 65 bytes. |
| XmlScan.CountedWheneverShort | app/core/xlsx_import.py:108-117 | A tag is counted under every way of cutting the content if and only if it has at most 65 bytes. |
| XmlScan.MarkerInWindow | app/core/xlsx_import.py:108-117 | A marker is in the content read so far exactly when it was before or is in the window. |
| XmlScan.ChunkingIsInvisible | app/core/xlsx_import.py:90-117 | However the content is cut, the verdict is that of the whole content, if the first chunk holds at least 4 bytes or is the only one and counted tags are at most 65 bytes. |
| XmlScan.NeverStricter | app/core/xlsx_import.py:90-117 | With longer tags the scan can only accept more, never less. |
| Schedule.ComputeNextReminder | app/control/schedule.py:81-104 | For any zone with offsets strictly between -24 h and 24 h the search never runs out: its result is the first matching slot behind `after` from the local day on, within ten days; wrong arguments give their error. |
| Schedule.EarliestOfAll | app/control/schedule.py:81-104 | In a zone where earlier dates are never later instants the result is the earliest of all slots behind `after`. |
| Schedule.SlotShowsHour | app/control/schedule.py:81-104 | At the slot the local clock shows the chosen hour of the chosen weekday, unless a change of the clocks skips it. |
| Reminders.ClaimsAdvance | app/control/schedule.py:159-189 | Under any interleaving of ticks, the phases of saves, deletions and restarts without a stale save, every slot is claimed at most once and in order. |
| Reminders.InOrderIff | app/api/v1/schedule.py:83-106 | From any state in which claims are in order, they stay in order in every continuation without a further stale save if and only if the next step is not one: a save that is about to leave the row switched on with a slot not later than the last one claimed. |
| Reminders.PromptEditIsFresh | app/api/v1/schedule.py:83-106 | A save is not stale if nothing was written since it loaded the row and the last slot claimed is not later than the time it has read. |
| Reminders.SameSlotIsFresh | app/api/v1/schedule.py:84-106 | Nor is a save that computes the slot it has loaded, on a row that is switched on, whatever was claimed between its load and its commit: the slot is not written. |
| Reminders.SecondClaimLoses | app/control/schedule.py:183-189 | Of two ticks that read one slot only the first claim sends, with any run without a stale save between the two claims. |
| Reminders.StaleEditRepeats | app/api/v1/schedule.py:83-106 | Reachable stale saves: one with a claim between its clock and its load sends a slot twice, one with a changed schedule and a claim before its commit sends slots out of order. |
| Reminders.SavedAlone | app/api/v1/schedule.py:84-106 | If nothing was written since the load, a save leaves the row as computed and the time of the last claim as it was. |
| Reminders.SavedTogether | app/api/v1/schedule.py:84-106 | Of saves that overlap each column is this save's where it changed it, and the others' where it did not. |
| Reminders.OffStaysQuiet | app/control/schedule.py:164-189 | While nobody saves, a reminder that is off or deleted stays so, and nothing is claimed in any run. |
| Reminders.ClaimLeaves | app/control/schedule.py:183-189 | A matching claim stores the following slot, or switches off, and the time of its tick; any other changes nothing. |
| Reminders.LastStaysPast | app/control/schedule.py:183-186 | Over every run the stored time of the last claim is not before the slot it was for, and not in the future. |
| Reminders.Reminder.BeginSend | app/control/schedule.py:164-170 | Is one read step of a tick: nothing to do, or the slot that is due at the time it has read. |
| Reminders.Reminder.EndSend | app/control/schedule.py:170-189 | Is one claim step; the following slot is the first one behind the tick's time, and without a usable zone the reminder is switched off. |
| Reminders.Reminder.CommitSave | app/api/v1/schedule.py:84-106 | Is one commit step; the slot is the first one behind the time the request read, only what differs from the loaded row is written, and inserting a second row or updating a deleted one fails. |
| Audit.PageIs | app/api/v1/audit.py:62-69 | A page is in order, from the selection, and its cursor names its last event. |
| Audit.PageLosesNothing | app/api/v1/audit.py:62-69 | What is selected and not on the page lies behind its cursor; without a cursor nothing is left. |
| Audit.WalkVisitsAll | app/api/v1/audit.py:54-69 | While events are appended between page reads, following the cursor to its end visits every event that was there at the start exactly once, newest first, and none of another organization. |
| Audit.FixedLogIsSorted | app/api/v1/audit.py:54-69 | Over a log that does not change the walk ends for every limit and is the whole log in order. |
| Ulid.Encode | app/control/ids.py:20-25 | The loop yields the fixed-length base-32 digits, most significant first. |
| Ulid.EncodingKeepsOrder | app/control/ids.py:20-25 | Fixed-length encoding keeps order and is injective for numbers that fit. |
| Ulid.TextKeepsOrder | app/control/ids.py:28-43 | Texts order as (time, random) pairs do, for times below 2^50 ms and random parts below 2^80. |
| Ulid.IdsIncrease | app/control/ids.py:28-43 | Any series of clock readings, standing still or going back, with overflow of the random part, gives strictly increasing strings. |
| Ulid.IdAt | app/control/ids.py:28-43 | The i-th identifier is the text of the generator's state after i + 1 calls. |
| Ulid.TimeIsRecent | app/control/ids.py:28-43 | Its time is no earlier than any clock reading so far, and ahead of all of them by no more than the number of calls. |
| Ulid.ClockIsShown | app/control/ids.py:28-43 | A reading later than the generator's time is shown as it is, with its own random part. |
| Ulid.Generator.NewUlid | app/control/ids.py:28-43 | Is one step of that series; the state always moves forward. |

## Left out

- OAuth: hashing, PKCE, redirect checks and the resource field; a secret is identified with its row, `token_hash` being unique.
- OAuth: `last_used_at`, audit events and the HTTP layer, which take no part in token decisions.
- OAuth: `revoke_subtree` for tokens from before grants existed; such tokens are never accepted.
- OAuth: expiry of client registrations in the SDK's own client lookup; the consent handlers are environment steps.
- OAuth: the clock is read once per transaction.
- Reconcile: the report of differences that leads to no action, archive reading, path checks and file cleanup after the commit.
- Reconcile: `user_id` set to null on grants and tokens of a deleted user, and the upload reference of a job.
- Reconcile: placeholders are distinct from each other and from every stored or restored address, as new ULIDs are.
- Reconcile: a webhook id keeps its organization between snapshot and restored database.
- Executor: maintenance mode, deletion of an organization (refused while it has active jobs), hashes, run records and listeners.
- Executor: the lock is given back at the final commit, before the listeners are called.
- Executor: months of usage are one counter per organization.
- Executor: messages, error codes and time stamps of jobs; the audit entry of a finished run.
- Tenancy: paths, tenant settings and the runner itself, which is a number here.
- RateLimit: floating-point rounding; times and tokens are reals.
- RateLimit: a bound for a key whose own bucket is evicted by an overflow, for which the program gives none.
- RateLimit.LimiterForgetsRefusals: traces with overflow evictions, where a refused hit can decide which buckets are the oldest.
- RateLimiterObject.RateLimiter.Prune: among buckets of the same age any may be evicted, where the program takes the first inserted.
- Numbers: non-ASCII decimal digits on the fast path, cells that are numbers already, and floating-point rounding (values are reals; the threshold of infinity is kept).
- Money.PlnRoundTrip: amounts in whole cents, since rounding of floats to cents is not modelled.
- XmlScan: cancellation between chunks, and the ZIP container around the parts.
- XmlScan.ChunkingIsInvisible: a first chunk of fewer than 4 bytes can hide a byte order mark; the program reads 256 KiB at a time.
- Schedule: the end of the calendar; days are unbounded integers.
- Reminders: transactions are read committed and a save's statement takes effect as a whole, as the commit step.
- Reminders: mails, recipients and the skip after a recent upload, which all follow the claim.
- Audit: the base64 and JSON text of a cursor, which stands for its (ts, id) here; malformed cursors and limits outside 1 to 200 are rejected before the query.
- Ulid: times of 2^50 ms and later.
- Report rendering, narratives, metrics, plans, migrations, the web cockpit and the HTTP routes would only add easy members.
