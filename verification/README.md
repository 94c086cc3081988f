# Deltix-Server: models and proofs

This project models the concurrent protocols and the graph and sequence
algorithms of Deltix-Server in Dafny and proves what they keep over every run.
`dafny verify dfyconfig.toml` checks all of it.

| files | part of the system |
|---|---|
| `TransferJobs`, `Backoff`, `SyncWorker`, `SyncProtocol` | the SSD-to-NAS transfer-job pipeline |
| `TicketStore`, `TicketProtocol` | ephemeral transfer tickets |
| `PushHandler`, `PushSession`, `PushCauses`, `PushExamples` | one streamed push over gRPC |
| `RepoMutex`, `BranchServices`, `BranchExamples` | the per-repository promise chain and the branch and merge services on it |
| `TableNames`, `CommitGraph`, `CommitTables`, `DoltRepo`, `ImportService`, `ExportService` | pushing and pulling Dolt commits |
| `PullReplay`, `ReferenceOrder`, `OrderedPull`, `SampleEngine`, `PullExamples` | when a replayed pull gives the branch's tables, and how it can fail to |
| `ConcurrentImport`, `PushRefinement`, `ImportExamples` | pushes that interleave with each other and with branch calls |
| `Strings`, `ForeignKeyClosure`, `SyncPreference` | the foreign-key closure planner |
| `LoginRateLimiter`, `LoginBurst`, `Csv`, `CircuitBreaker` | the login limiter, the CSV reader, the addon circuit breaker |

## How the models are built

A store is a class over a `map`; each of its conditional UPDATE statements is a
method tied to a function on tables (`ClaimWrite`, `ActivateWrite`, ...). A
concurrent protocol is a step machine over the same functions: one action is the
code between two awaits, or in `ConcurrentImport` a stage of a push (its head query,
a checkout, one table, the add and the commit); `IsRun` is any finite interleaving,
and the theorems quantify over all runs. The logs in the machine states (`log`, `started`,
`deletions`, `replies`) only record what happened; no step reads them.

What the models take as given:

- **Workers.** No worker crashes and no store call throws while a job is claimed:
  the code has no recovery for an orphaned `syncing` row. The failure instant of
  a job is the clock reading in the `catch` block of `processNext`; the UPDATE
  that records it may come later, and the spacing of retries holds for the former.
- **Tickets.** A ticket id is 32 random bytes, so no earlier call has named it.
  The clock does not go back. Calls may name any id.
- **Push.** `rm` with `force` does not reject, a `create` that throws stores no row,
  and the digest is an arbitrary function of the bytes. A write to a sink that was
  already ended may throw or not. `consumeTicket` returns a ticket for the operation
  and repo that it was asked for, as `TicketProtocol` proves. The machine allows every
  order in which queued work and events can be served, and some more.
- **Mutex.** A promise settles some time after what it depends on.
- **Branches.** Every `dolt` command may fail without effect. Runs of `BranchServices`
  contain the four calls that share the mutex. `importCommits` does not take it;
  `ConcurrentImport` interleaves the stages of such calls with each other and with
  branch creation, checkout and deletion, merges that move a branch, and commands that
  rewrite the working set alone.
- **Dolt.** `Engine` holds what is Dolt's own, and every command sees the working set:
  `run` executes any SQL text on it, with any effect; TRUNCATE and the row import may
  be refused there. `Faithful` says that printed rows load back under the same schema
  if they load at all, that the printed DDL of a created table creates it again, and
  that tables derived for full-text indexes have hidden names. `SampleEngine` shows
  that these axioms can be met. Table names are case-sensitive. A commit's order is above its parents', and a checkout
  refuses to leave uncommitted rows behind. Only `ReferenceOrder` and `OrderedPull`
  assume more: an engine on which foreign keys between tables decide what is accepted.
- **Sequential pushes.** The contracts of `ImportService` and the push lemmas of
  `DoltRepo` are about a push that nothing else interrupts. What is left of them for
  concurrent pushes is in `ConcurrentImport`.
- **Text.** Strings are compared by code point, which differs from JavaScript's order
  only beyond U+FFFF. Integers are unbounded; every retry delay is capped.

Where code and documentation disagree the models follow the code: the diagram in
`src/contexts/storage/types.ts` (lines 12-17) has a requeued job go to `syncing` and
`dead_letter` follow `sync_failed`, but `requeueDeadLetter` writes `staged` and
`markFailed` enters `dead_letter` straight from `syncing`. The cleanup
test of the mutex compares with a promise that is never stored, so it never
removes an entry (`TailIsNeverCurrent`).

## Claims that are false of the code

- *Replaying a pull gives the branch's tables.* `ReplayReachesHeadIff` says exactly
  when it does, for any tables a client has and any `from`. It fails for a client on
  another branch (`OtherBranchKeepsItsTable`), for one with a stale hash
  (`StaleClientKeepsItsTable`), when the diff lists a child table before its parent
  (`ChildBeforeParent`), and for rows that print without a line of text
  (`BlankRowsAreLost`). Where foreign keys decide, `OrderedPullReachesHead` makes the
  condition one on the server's history alone.
- *An import never drops a table or changes a schema.* Nothing checks the DDL text of a
  push: `AlteringDdl` and `DroppingDdl` are imported with success. `ImportKeepsIff`
  reduces the question to that text, and `ImportGrows` is the result for plain CREATE
  TABLE texts.
- *A push that names a head goes on top of it.* The head is read once, without the
  mutex, and nothing is tested when no head is read. Two pushes naming the same head
  both succeed (`BothPushesSucceed`); a checkout in between moves a commit to another
  branch (`CheckoutMovesCommit`); a push to a branch that does not exist goes on top of
  whatever is checked out (`MissingBranchIgnoresHead`); and a failed head query lets
  any push through (`UnreadHeadSkipsTest`). `FastForwardIff` says exactly when the
  promise is kept over every run, `AloneIsFastForwardIff` when for a push that is left
  alone, and `BranchOnlyAdvances` that no commit is lost either way.
- *A push needs a push ticket.* The ticket is consumed for the operation that the
  client's own header names, so a header that says `pull` goes through on a pull ticket
  (`PullTicketCarriesPush`).
- *A failed merge leaves no merge pending.* Reading the conflicts may fail, and then
  nothing aborts the merge (`ConflictStaysPending`). `PendingMergeIff` says exactly when
  one is pending.

## Model

| member | source | states |
|---|---|---|
| `SyncProtocol.SyncingJobsHaveOneHolder` | src/contexts/storage/libsql-transfer-job-store.ts:100-157 | for any number of workers and any interleaving, `syncing` jobs and workers that won a claim and have not marked it correspond one to one, a holder's copy of its row is current, and no job is copied by two workers at once |
| `SyncProtocol.HoldersAlwaysWin` | src/contexts/storage/libsql-transfer-job-store.ts:133-157 | every `markSynced` and `markFailed` that a worker issues finds its row `syncing` and changes it |
| `SyncProtocol.OutcomeFollowsCopy` | src/contexts/storage/nas-sync.service.ts:43-65 | a job is marked synced only after its holder's copy reported the checksum in the row, failed only after the copy threw or reported another one, with that message, and the next retry comes one delay after the instant at which that was learned: the doubled base, or the cap where that is lower |
| `SyncProtocol.RetryCountCountsFailures` | src/contexts/storage/libsql-transfer-job-store.ts:142-167 | in every reachable state `retryCount` is the number of failures since creation or requeue, below `maxRetries` except in `dead_letter`, where it equals it |
| `SyncProtocol.ClaimMeans` | src/contexts/storage/libsql-transfer-job-store.ts:115-131 | the claiming UPDATE wins exactly on a row that is staged, or failed with its retry due; a lost claim leads to the next candidate, then to the next of five SELECTs, then to false |
| `SyncProtocol.SelectMeans` | src/contexts/storage/libsql-transfer-job-store.ts:100-113 | the clock is read once per call, and an empty SELECT means that nothing is eligible at that reading |
| `SyncProtocol.SyncedIsFinal` | src/contexts/storage/libsql-transfer-job-store.ts:133-140 | a synced row never changes again |
| `SyncProtocol.DeadLetterNeedsRequeue` | src/contexts/storage/libsql-transfer-job-store.ts:159-167 | along every run a dead letter keeps its row until a step requeues it, to `staged` with a zero count |
| `SyncProtocol.RowChange` | src/contexts/storage/libsql-transfer-job-store.ts:100-167 | the complete list of ways in which a step changes a row |
| `SyncProtocol.NoEarlyRetry` | src/contexts/storage/libsql-transfer-job-store.ts:104-124 | a failed job is claimed again only at or after its `nextRetryAt`, which is its last failure plus the doubled base for its count, or plus the cap where that is lower |
| `SyncProtocol.DeadLetterTookEveryBackoff` | src/contexts/storage/nas-sync.service.ts:56-62 | from first to last failure a dead letter took at least the sum of all delays: with the first m below the cap and the others at it, base·(2^m − 1) + (n−1−m)·cap, and base·(2^(n-1) − 1) while uncapped |
| `SyncProtocol.BudgetBoundsProcessing` | src/contexts/storage/nas-sync.service.ts:43-65 | without new or requeued jobs, the `true` returns of all workers together never exceed the loss of the summed remaining retries, whatever the NAS and the clock do |
| `SyncProtocol.WorkerGoesOn` | src/contexts/storage/nas-sync.service.ts:43-65 | no worker is ever stuck: it always has a step to take, its call ends within a bounded number of its own steps, and no other's step touches it |
| `Backoff.DelayLaw` | src/contexts/storage/nas-sync.service.ts:20-23 | the delay is the doubled base or the cap, whichever is lower; it is the cap exactly from where the doubled base reaches it, and never shrinks |
| `Backoff.TotalBackoffCapped` | src/contexts/storage/nas-sync.service.ts:20-23 | the delays add up to a geometric sum and then a multiple of the cap |
| `Backoff.SpacedCapped` | src/contexts/storage/nas-sync.service.ts:20-23 | instants that respect each delay are apart by at least that |
| `Backoff.TotalBackoffUncapped` | src/contexts/storage/nas-sync.service.ts:20-23 | the delays add up to a geometric sum while none reaches the cap |
| `Backoff.SpacedTotal` | src/contexts/storage/nas-sync.service.ts:20-23 | instants that respect each delay are apart by at least the total |
| `Backoff.SpacedUncapped` | src/contexts/storage/nas-sync.service.ts:20-23 | while no delay reaches the cap, spaced instants are apart by at least base·(2^k − 1) |
| `SyncProtocol.SurroundingsMean` | src/contexts/storage/push-session-handler.ts:141-154 | a push adds a staged row without failures, with its repo, path and checksum, at the clock |
| `TransferJobs.MarkSpendsBudget` | src/contexts/storage/libsql-transfer-job-store.ts:133-157 | marking a claimed job costs retry budget whichever way it goes, and keeps every row's retry invariant |
| `TransferJobs.TransferJobStore.Create` | src/contexts/storage/libsql-transfer-job-store.ts:69-89 | inserts a row under a new id and changes nothing else |
| `TransferJobs.TransferJobStore.SelectCandidates` | src/contexts/storage/libsql-transfer-job-store.ts:104-111 | at most five distinct eligible rows, oldest first, leaving out an eligible row only for five that are no younger |
| `TransferJobs.TransferJobStore.ClaimNextEligible` | src/contexts/storage/libsql-transfer-job-store.ts:100-131 | under interference a returned id was selected before and won by one atomic write, and none means an empty SELECT or at least five claims lost to others; alone it claims an oldest eligible row, and returns none exactly when nothing is eligible |
| `TransferJobs.TransferJobStore.TryClaim` | src/contexts/storage/libsql-transfer-job-store.ts:118-124 | one row is affected exactly when it is still eligible |
| `TransferJobs.TransferJobStore.MarkSynced` | src/contexts/storage/libsql-transfer-job-store.ts:133-140 | wins exactly on a `syncing` row and gives the whole new table |
| `TransferJobs.TransferJobStore.MarkFailed` | src/contexts/storage/libsql-transfer-job-store.ts:142-157 | wins exactly on a `syncing` row, counts the failure and chooses `dead_letter` at the limit |
| `TransferJobs.TransferJobStore.RequeueDeadLetter` | src/contexts/storage/libsql-transfer-job-store.ts:159-167 | wins exactly on a dead letter and restarts it as staged |
| `SyncWorker.NasSyncService.ProcessNext` | src/contexts/storage/nas-sync.service.ts:43-65 | false means that nothing was eligible and nothing changed; true means that exactly one oldest eligible row went through one attempt, with the row that the copy's outcome calls for, at a cost in budget |
| `SyncWorker.AttemptSpendsBudget` | src/contexts/storage/nas-sync.service.ts:43-65 | claiming and marking amount to one attempt on the row as it was, and cost budget |
| `SyncWorker.NasSyncWorker.DrainOnce` | src/contexts/storage/nas-sync.worker.ts:39-59 | a second tick does nothing while one drains; otherwise the loop ends within the budget, and at its last claim nothing was staged and no retry was due |
| `TicketProtocol.AtMostOneConsumer` | src/contexts/transfer/ticket.service.ts:73-110 | for any interleaving at most one `consumeTicket` call per ticket ever returns |
| `TicketProtocol.ConsumeIsAuthorised` | src/contexts/transfer/ticket.service.ts:58-110 | a returned ticket has the operation and repo asked for, and at a step of the same call that ticket's own user was a writer or admin there for a push, and had some role there for a pull |
| `TicketProtocol.RenewIsAuthorised` | src/contexts/transfer/ticket.service.ts:112-134 | a heartbeat extends a ticket only after a step of the same call at which its user was a writer or admin for a push ticket, or had some role for a pull ticket |
| `TicketProtocol.VerifiedMeansChecked` | src/contexts/transfer/ticket.service.ts:58-71 | the record of a passed check names a step of the same call at which the user's role allowed the ticket's operation |
| `TicketProtocol.RoleCheckDecides` | src/contexts/transfer/ticket.service.ts:13-71 | at a role check a writer or admin goes on with a push, and anyone with a role with a pull; everyone else ends in `TicketRoleRevokedError` |
| `TicketProtocol.FirstStepsMean` | src/contexts/transfer/ticket.service.ts:73-88 | a call reads the clock when it starts, and a matching stored ticket leads to the check of its own user, operation and repo |
| `TicketProtocol.ConsumeWriteMeans` | src/contexts/transfer/ticket.service.ts:90-97 | exactly an issued, matching, unexpired ticket is activated, and nothing else about it changes |
| `TicketProtocol.RenewWriteMeans` | src/contexts/transfer/ticket.service.ts:112-126 | exactly an active, unexpired ticket gets the expiry that is returned, one lifetime after the call's clock reading |
| `TicketProtocol.CloseWriteMeans` | src/contexts/transfer/ticket.service.ts:136-141 | exactly an active ticket is closed; any other is reported as not found |
| `TicketProtocol.ConsumeErrorIsTrue` | src/contexts/transfer/ticket.service.ts:99-110 | the error of a lost consume is the first that is true of the ticket as read: unknown, expired, for another operation or repo, or no longer issued |
| `TicketProtocol.RenewErrorIsTrue` | src/contexts/transfer/ticket.service.ts:128-133 | a lost heartbeat reports an active ticket as expired and any other as not found |
| `TicketProtocol.IssueStores` | src/contexts/transfer/ticket.service.ts:38-56 | an issued ticket has what was asked for, its lifetime, and sync options only for a push |
| `TicketProtocol.FailedCallWritesNothing` | src/contexts/transfer/ticket.service.ts:58-141 | no step of a call that ends in an error, a failed role check included, changes the table |
| `TicketProtocol.WinnersReturn` | src/contexts/transfer/ticket.service.ts:90-99 | a call that wins the activation finds its ticket and returns it as stored at that moment |
| `TicketProtocol.ExpiryBounds` | src/contexts/transfer/ticket.service.ts:112-134 | issuedAt + ttl ≤ expiresAt ≤ clock + ttl in every reachable state, with racing heartbeats |
| `TicketProtocol.TicketLifecycle` | src/contexts/transfer/libsql-ticket-store.ts:80-119 | tickets keep their identity, never become `issued` again, and never change once closed or expired |
| `TicketProtocol.AlreadyConsumedIsTrue` | src/contexts/transfer/ticket.service.ts:99-110 | `TicketAlreadyConsumedError` is raised only for a ticket that has left `issued` |
| `TicketProtocol.CallGoesOn` | src/contexts/transfer/ticket.service.ts:73-141 | an unfinished call can always go on, every step brings it nearer to its end, and nobody else's step touches it |
| `TicketProtocol.SurroundingsMean` | src/contexts/transfer/libsql-ticket-store.ts:111-119 | roles may change at any moment, and a reap expires exactly the overdue issued and active tickets |
| `TicketStore.LibsqlTicketStore.Activate` | src/contexts/transfer/libsql-ticket-store.ts:80-92 | wins exactly on a matching, issued, unexpired ticket; gives the whole new table |
| `TicketStore.LibsqlTicketStore.Renew` | src/contexts/transfer/libsql-ticket-store.ts:94-101 | wins exactly on an active, unexpired ticket; gives the whole new table |
| `TicketStore.LibsqlTicketStore.Close` | src/contexts/transfer/libsql-ticket-store.ts:103-109 | wins exactly on an active ticket; gives the whole new table |
| `TicketStore.LibsqlTicketStore.ReapExpired` | src/contexts/transfer/libsql-ticket-store.ts:111-119 | expires exactly the overdue issued and active tickets and counts them |
| `PushSession.AtMostOneReply` | src/contexts/storage/grpc-transfer-server.ts:91-222 | for every order of events the callback fires at most once, after `end` and after every message was handled |
| `PushSession.ExactlyOneReply` | src/contexts/storage/grpc-transfer-server.ts:182-222 | once `end` arrived and the queue drained, a call that was not cancelled has exactly one reply |
| `PushSession.SuccessMeansStored` | src/contexts/storage/grpc-transfer-server.ts:122-180 | a success reply has the hash and length of all chunks in arrival order; its one header came before every chunk and a ticket was consumed for the operation and repo it names; unless it is a dry run exactly one staged row with that hash was stored |
| `PushCauses.AbortHasCause` | src/contexts/storage/grpc-transfer-server.ts:112-197 | every recorded abort has its cause in the step that recorded it, with the code for that cause: a message out of order, a failed consume, directory, preparation or row, or an end or write after an `error` event or without a name |
| `PushCauses.GoodPushSucceeds` | src/contexts/storage/grpc-transfer-server.ts:122-197 | every push with one header, with its names, before its chunks, for which nothing fails and no event interferes, is answered with success once it has ended and drained |
| `PushExamples.PullTicketCarriesPush` | src/contexts/storage/grpc-transfer-server.ts:122-133 | a run in which a header that names the pull operation consumes a pull ticket and the push stores its row |
| `PushSession.StoredRow` | src/contexts/storage/push-session-handler.ts:141-154 | the stored row is staged, with the repo and path of the preparation, the hash of all chunks, no failures, and the clock reading of `finish` |
| `PushSession.PrepareMeans` | src/contexts/storage/push-session-handler.ts:122-139 | a dry run goes straight to its reply, any other preparation to its row |
| `PushSession.FailureMeansNothingStored` | src/contexts/storage/grpc-transfer-server.ts:112-120 | an error reply means that no row was stored, and reports the first recorded cause |
| `PushSession.ChunkMeans` | src/contexts/storage/push-session-handler.ts:91-98 | a chunk of an open session is written, hashed and counted, unless an event has closed the sink and the write throws |
| `PushSession.EventsClose` | src/contexts/storage/grpc-transfer-server.ts:215-222 | an `error` or `cancelled` event closes an open session and removes its staging file; a session that `finish` has closed keeps it |
| `PushSession.AbortCloses` | src/contexts/storage/grpc-transfer-server.ts:112-120 | a recorded abort does the same |
| `PushSession.AbortedIsClosed` | src/contexts/storage/grpc-transfer-server.ts:112-120 | in every reachable state an aborted session is closed |
| `PushSession.NeverStuck` | src/contexts/storage/grpc-transfer-server.ts:199-222 | while there is queued or unfinished work some step is enabled |
| `PushSession.DrainsInBoundedSteps` | src/contexts/storage/grpc-transfer-server.ts:199-222 | once events stop, the handler finishes within a bound given by the queue |
| `PushHandler.PushSessionHandler.OnHeader` | src/contexts/storage/push-session-handler.ts:71-89 | accepted exactly for the first header with a consumed ticket; otherwise nothing changes |
| `PushHandler.PushSessionHandler.OnChunk` | src/contexts/storage/push-session-handler.ts:91-98 | hash, file and length stay in step, or nothing changes without a sink |
| `PushHandler.PushSessionHandler.Abort` | src/contexts/storage/push-session-handler.ts:169-182 | the session is closed and cannot finish, an open one loses its staging file, a closed one is untouched |
| `PushHandler.PushSessionHandler.Finish` | src/contexts/storage/push-session-handler.ts:112-167 | refused with its reason and without effect, or the reply carries the hash and length of all bytes and, unless a dry run, exactly one row with that hash was added |
| `RepoMutex.MutualExclusion` | src/contexts/versioning/repo-branch-mutex.ts:4-23 | in every reachable state at most one action per repo is running |
| `RepoMutex.StartsInCallOrder` | src/contexts/versioning/repo-branch-mutex.ts:4-23 | actions on a repo start in call order, each once, and only when all earlier ones are over |
| `RepoMutex.TailIsNeverCurrent` | src/contexts/versioning/repo-branch-mutex.ts:10-21 | the stored tail is never a `current` promise, so leaving never removes an entry |
| `RepoMutex.RepoNeverStuck` | src/contexts/versioning/repo-branch-mutex.ts:14-23 | a pending call always has a step on its own repo to wait for, whether earlier actions returned or threw and whatever other repos do |
| `RepoMutex.BoundedProgress` | src/contexts/versioning/repo-branch-mutex.ts:4-23 | between new calls every step uses up one of a fixed number, so pending calls get through |
| `RepoMutex.RunInv` | src/contexts/versioning/repo-branch-mutex.ts:4-23 | the chain invariant holds in every reachable state |
| `RepoMutex.RepoBranchMutex.Enter` | src/contexts/versioning/repo-branch-mutex.ts:5-13 | waits for an earlier call's derived promise, if any, and stores its own, so that every stored tail stays one |
| `RepoMutex.RepoBranchMutex.Exit` | src/contexts/versioning/repo-branch-mutex.ts:17-22 | removes an entry only if it is `current`; with derived tails, nothing |
| `BranchServices.MainAndCurrentExist` | src/contexts/versioning/branch.service.ts:41-88 | over every interleaving of create, checkout, delete and merge, `main` and the checked-out branch exist |
| `BranchServices.DeletesAreSafe` | src/contexts/versioning/branch.service.ts:69-88 | no delete command is issued for `main` or for the branch checked out at that moment |
| `BranchServices.OnlyDeletesShrink` | src/contexts/versioning/branch.service.ts:69-88 | a branch disappears only in a delete asked for by its name, when it is neither `main` nor checked out; and a merge checks its target out only when another branch is current |
| `BranchServices.MergeNamesItsTarget` | src/contexts/versioning/merge.service.ts:39-79 | a merge result or conflict names the branch that the merge ran on, which is the one asked for if one was, and follows how the merge ended |
| `BranchServices.ResultHolds` | src/contexts/versioning/branch.service.ts:41-88 | while its section lasts a result is true: a created branch exists and the current one is as reported, a branch checked out is current, a deleted one is gone |
| `BranchServices.ThrewHasCause` | src/contexts/versioning/branch.service.ts:41-88 | a call throws only because one of its own commands failed, was refused, met a protected branch or broke in a merge |
| `BranchServices.EndReports` | src/contexts/versioning/merge.service.ts:66-77 | a section throws exactly for an error or a merge conflict |
| `BranchServices.SectionGoesOn` | src/contexts/versioning/merge.service.ts:39-79 | a running section can issue its next command or end, with boundedly many commands left |
| `BranchServices.PendingMergeIff` | src/contexts/versioning/merge.service.ts:66-77 | in every reachable state a merge is pending on a repository exactly when a `dolt merge` on it ended in conflicts and no successful `dolt merge --abort` has followed |
| `BranchExamples.ConflictStaysPending` | src/contexts/versioning/merge.service.ts:66-69 | a run in which the conflicts cannot be read, the call throws without an abort and the merge stays pending |
| `BranchServices.PendingMergeHasCulprit` | src/contexts/versioning/merge.service.ts:66-77 | in every reachable state a pending merge is the doing of a call whose conflict has not been aborted |
| `BranchServices.CommandKeeps` | src/contexts/versioning/branch.service.ts:41-88 | each command, run alone on its repo, keeps what the running action relies on |
| `CommitGraph.PullIsParentClosed` | src/contexts/versioning/dolt-commit-export-cli.ts:222-242 | over any commit graph each listed commit's parents are listed before it or reachable from `from`; an unresolvable `from` lists a parent-closed full history |
| `CommitGraph.PullCompletesBranch` | src/contexts/versioning/dolt-commit-export-cli.ts:222-242 | a pull lists exactly what the branch has and the client lacks; together they are exactly the branch if and only if `from` is on it |
| `CommitGraph.LinearPullsCompose` | src/contexts/versioning/dolt-commit-export-cli.ts:222-242 | on a linear history pulling to h and then from h lists what one full pull lists |
| `TableNames.FulltextMeaning` | src/contexts/versioning/fulltext-tables.ts:19-25 | the hidden tables are exactly those named `dolt_`, anything on one line, and one of the five endings |
| `TableNames.SafeNameMeaning` | src/contexts/versioning/dolt-commit-import-cli.ts:129-130 | a safe name is one word of letters, digits and underscores that does not begin with a digit |
| `CommitTables.VisibleConcat` | src/contexts/versioning/dolt-commit-import-cli.ts:76-76 | the filter goes dump by dump and keeps their order |
| `CommitTables.ImportKeepsIff` | src/contexts/versioning/dolt-commit-import-cli.ts:123-145 | a reduction: importing a table keeps every table and schema exactly when running its DDL text does |
| `CommitTables.ImportLoadsRows` | src/contexts/versioning/dolt-commit-import-cli.ts:123-178 | after a successful import of a plain dump with two lines of text the rows are those that the engine loaded from it; with fewer the table is empty |
| `CommitTables.ContentLinesCount` | src/contexts/versioning/dolt-commit-import-cli.ts:147-154 | the count of lines is above one exactly when two different lines have a character other than a carriage return |
| `CommitTables.ImportGrows` | src/contexts/versioning/dolt-commit-import-cli.ts:123-178 | with DDL texts that are plain CREATE TABLEs of their own names, import never drops a table and never changes the schema of one that exists, whether or not it succeeds |
| `CommitTables.ImportFrame` | src/contexts/versioning/dolt-commit-import-cli.ts:123-178 | importing plain dumps leaves every table that it does not name as it was |
| `CommitTables.ImportInstalls` | src/contexts/versioning/dolt-commit-import-cli.ts:123-178 | importing printed tables succeeds exactly when each one's commands are accepted in the order sent, and then installs exactly those tables, but for rows that print without a second line of text |
| `CommitTables.SentIsChanged` | src/contexts/versioning/dolt-commit-export-cli.ts:80-102 | what is sent for a commit of such a history is exactly what it changed among the user's tables, printed |
| `CommitTables.FiltersAgree` | src/contexts/versioning/fulltext-tables.ts:19-25 | the table filters of import and export accept the same names |
| `PullReplay.RowFollowsRow` | src/contexts/versioning/dolt-commit-export-cli.ts:222-242 | on a linear history each listed commit but the first comes right after its parent, wherever `from` is |
| `PullReplay.ReplayReachesHeadIff` | src/contexts/versioning/dolt-commit-export-cli.ts:176-242 | for any tables of the client and any `from`, resolvable or not, the replay gives exactly the branch's tables if and only if the two are reconcilable and every command is accepted in the order sent |
| `PullReplay.ReplayReachesHead` | src/contexts/versioning/dolt-commit-export-cli.ts:176-214 | a client at a `from` on the branch, or with nothing, reaches exactly the branch's tables if and only if every command is accepted in the order sent and every changed table has no rows or prints with two lines of text |
| `PullReplay.ReplayPredicted` | src/contexts/versioning/dolt-commit-import-cli.ts:76-79 | under agreeing schemas the replay lays the sent tables over the client's own, or fails exactly where a command does |
| `PullReplay.ReplayOnlyGrows` | src/contexts/versioning/dolt-commit-import-cli.ts:123-178 | replaying plain dumps never drops a table or changes a schema |
| `ReferenceOrder.AcceptedIffInOrder` | src/contexts/versioning/dolt-commit-export-cli.ts:195-204 | where foreign keys decide, the tables of a commit are accepted exactly when each new one comes after those it refers to and no existing one is sent that another refers to |
| `OrderedPull.OrderedPullReachesHead` | src/contexts/versioning/dolt-commit-export-cli.ts:176-214 | where foreign keys decide, a client on the branch reaches exactly its tables if and only if each commit's tables are sent in the order that references need, given what the branch had before, and every changed table has no rows or prints with two lines of text |
| `PullExamples.PullExists` | src/contexts/versioning/dolt-commit-export-cli.ts:176-242 | every branch of a replayable history can be pulled since anything |
| `PullExamples.OtherBranchKeepsItsTable` | src/contexts/versioning/dolt-commit-export-cli.ts:222-242 | a client on one branch that pulls another one does not reach the branch's tables; the pull is given |
| `PullExamples.StaleClientKeepsItsTable` | src/contexts/versioning/dolt-commit-export-cli.ts:231-240 | the full history sent for an unresolvable hash does not remove the client's own table |
| `PullExamples.AlteringDdl` | src/contexts/versioning/dolt-commit-import-cli.ts:132-145 | a push whose DDL alters the table is imported, and what is then sent leaves the old schema in place |
| `PullExamples.DroppingDdl` | src/contexts/versioning/dolt-commit-import-cli.ts:132-145 | a push whose DDL drops the table is imported, and nothing is sent for it |
| `PullExamples.ChildBeforeParent` | src/contexts/versioning/dolt-commit-export-cli.ts:195-204 | a commit pushed parent first may be sent child first, and then fails to import |
| `PullExamples.BlankRowsAreLost` | src/contexts/versioning/dolt-commit-import-cli.ts:147-154 | rows that all print as blank lines are not loaded, with success |
| `ExportService.ExportTables` | src/contexts/versioning/dolt-commit-export-cli.ts:80-174 | exactly the changed tables that pass the filter, each once, as of the commit |
| `ExportService.RunDoltCommitExport` | src/contexts/versioning/dolt-commit-export-cli.ts:176-214 | one entry per listed commit in order; the root and commits without a diff send nothing |
| `DoltRepo.CheckoutKeeps` | src/contexts/versioning/dolt-commit-import-cli.ts:57-72 | a checkout starts a missing branch at the current head, never moves an existing one, and fails only on uncommitted rows |
| `DoltRepo.CommitExtends` | src/contexts/versioning/dolt-commit-import-cli.ts:83-95 | a commit goes on top of the checked-out branch's head and stages exactly the named tables |
| `DoltRepo.CommitGrows` | src/contexts/versioning/dolt-commit-import-cli.ts:83-95 | staging tables of a grown working set keeps the history one that pulls can replay |
| `DoltRepo.ImportCommitExtends` | src/contexts/versioning/dolt-commit-import-cli.ts:42-112 | whatever SQL a pushed commit carries, success adds one commit on the branch's tip and failure adds none |
| `DoltRepo.ImportCommitGrows` | src/contexts/versioning/dolt-commit-import-cli.ts:42-112 | plain dumps keep the history replayable and, from a clean working set, commit exactly what was imported |
| `DoltRepo.PushIsFastForward` | src/contexts/versioning/commit-import.service.ts:77-124 | for a push that runs alone: it is rejected, without effect, exactly when it names another head than the one read; success adds one commit per pushed commit with tables on top of the old tip; the first of them is on top of the named head if and only if that head was read, or none was and the tip was that head |
| `DoltRepo.PushSucceedsIff` | src/contexts/versioning/commit-import.service.ts:77-124 | a push of plain dumps, alone on a clean repository, succeeds exactly when it passes the head test and every commit with tables can be imported and changes something, and fails with a command exactly when one cannot |
| `DoltRepo.ImportCommitSucceedsIff` | src/contexts/versioning/dolt-commit-import-cli.ts:42-112 | from a clean working set a commit of plain dumps is made exactly when its imports succeed and change something |
| `DoltRepo.PushIsReplayable` | src/contexts/versioning/commit-import.service.ts:77-124 | a push of plain dumps that runs alone keeps the history replayable and, from a clean working set, ends with the tables that replaying the push gives |
| `ImportService.DoltRepository.CheckoutForImport` | src/contexts/versioning/dolt-commit-import-cli.ts:57-72 | performs the checkout of the model |
| `ImportService.DoltRepository.ImportOne` | src/contexts/versioning/dolt-commit-import-cli.ts:123-178 | runs the DDL, truncates a table that already exists, loads; a success with two lines of text ends with that load, whatever the DDL did |
| `ImportService.DoltRepository.ImportAll` | src/contexts/versioning/dolt-commit-import-cli.ts:76-79 | the loop stops at the first failure, in the state reached by then |
| `ImportService.DoltRepository.CommitStaged` | src/contexts/versioning/dolt-commit-import-cli.ts:83-95 | performs the add and the commit of the model |
| `ImportService.DoltRepository.RunDoltCommitImport` | src/contexts/versioning/dolt-commit-import-cli.ts:42-112 | checkout, tables and commit in sequence, ending where the model of one pushed commit does |
| `ImportService.DoltRepository.BranchHead` | src/contexts/versioning/dolt-commit-export-cli.ts:244-260 | the head of a branch that exists, if the query succeeds; otherwise none |
| `ImportService.DoltRepository.ImportCommits` | src/contexts/versioning/commit-import.service.ts:77-124 | the head query, which may fail and then skips the test, and the loop of a push that runs alone, ending in the state and outcome of the model |
| `ImportService.DoltRepository.StreamCommits` | src/contexts/versioning/commit-export.service.ts:75-88 | what a pull streams takes a client with any tables to the branch's exactly when the two are reconcilable and every command is accepted |
| `PushRefinement.LonePushIsSequential` | src/contexts/versioning/commit-import.service.ts:77-124 | a push whose stages follow one another without interruption ends in the repository and outcome of the sequential push |
| `PushRefinement.StageKeepsEnding` | src/contexts/versioning/commit-import.service.ts:103-124 | no stage changes how the push would end if it ran alone from there |
| `PushRefinement.StagesShrink` | src/contexts/versioning/commit-import.service.ts:103-124 | every stage leaves fewer |
| `ConcurrentImport.FastForwardIff` | src/contexts/versioning/commit-import.service.ts:91-124 | over every interleaving, the commits of a push form a chain on its branch on top of the head that it names exactly when its first commit finds the branch checked out at that head and each later one finds it where the push left it |
| `ConcurrentImport.AloneIsFastForwardIff` | src/contexts/versioning/commit-import.service.ts:91-124 | for a push that nobody disturbs after its head query and that has committed: the chain is on the named head if and only if that head was read, or none was, for a missing branch or a failed query, while the tip was that head |
| `ConcurrentImport.AloneIsOnTip` | src/contexts/versioning/commit-import.service.ts:91-124 | a push that nobody disturbs chains on the tip that its branch had at the head query |
| `ConcurrentImport.ServiceMeans` | src/contexts/versioning/branch.service.ts:41-88 | what creation, checkout, deletion and merges do to branches, commits and the working set |
| `ConcurrentImport.FailEnds` | src/contexts/versioning/dolt-commit-import-cli.ts:83-112 | a failed command ends the push without touching the repository |
| `ConcurrentImport.BranchOnlyAdvances` | src/contexts/versioning/commit-import.service.ts:103-117 | however pushes, branch calls and merges interleave, a branch that is not deleted only advances, so no commit on it is lost |
| `ImportExamples.BothPushesSucceed` | src/contexts/versioning/commit-import.service.ts:91-100 | a run in which two pushes that name the same head both succeed |
| `ImportExamples.MissingBranchIgnoresHead` | src/contexts/versioning/commit-import.service.ts:91-101 | a run in which a push, alone, to a branch that does not exist succeeds on top of another commit than the head it names |
| `ImportExamples.UnreadHeadSkipsTest` | src/contexts/versioning/commit-import.service.ts:91-101 | a run in which a push, alone, whose head query fails succeeds on top of another head than the one it names |
| `ImportExamples.CheckoutMovesCommit` | src/contexts/versioning/dolt-commit-import-cli.ts:57-95 | a run in which a checkout moves a push's commit to another branch |
| `ForeignKeyClosure.ComputeClosure` | src/contexts/versioning/sync-preference.service.ts:42-64 | terminates on every edge list, cyclic ones too, and returns sorted without duplicates exactly the tables reachable from the request |
| `ForeignKeyClosure.ClosureIsLeast` | src/contexts/versioning/sync-preference.service.ts:42-64 | the reachable tables are the least closed superset of the request |
| `ForeignKeyClosure.ClosedIffFixpoint` | src/contexts/versioning/sync-preference.service.ts:42-64 | a request resolves to itself exactly when it is closed |
| `ForeignKeyClosure.ClosureIdempotent` | src/contexts/versioning/sync-preference.service.ts:42-64 | resolving a closure adds nothing |
| `ForeignKeyClosure.ClosureMonotone` | src/contexts/versioning/sync-preference.service.ts:42-64 | more requested tables or more foreign keys never resolve to fewer tables |
| `Strings.UniqueSortedSorts` | src/contexts/versioning/sync-preference.service.ts:16-18 | strictly ascending, with exactly the given elements |
| `Strings.LessIff` | src/contexts/versioning/sync-preference.service.ts:16-18 | the sort order: the first difference decides, and a proper prefix comes first |
| `Strings.TrimMeaning` | src/contexts/versioning/sync-preference.service.ts:30-30 | trimming removes exactly the white space at both edges |
| `SyncPreference.RepoIdMeaning` | src/contexts/versioning/sync-preference.service.ts:13-13 | a repository id has one to 64 letters, digits, underscores and hyphens |
| `Strings.SpaceMeaning` | src/contexts/versioning/sync-preference.service.ts:30-30 | the characters that trimming removes |
| `SyncPreference.NormalizeMeaning` | src/contexts/versioning/sync-preference.service.ts:26-40 | refused exactly when a name that is not blank is unsafe, no selection exactly when all are blank, and otherwise exactly the trimmed names, ascending |
| `SyncPreference.NormalIsFixpoint` | src/contexts/versioning/sync-preference.service.ts:26-40 | a normalised list normalises to itself |
| `SyncPreference.BuildPlan` | src/contexts/versioning/sync-preference.service.ts:146-161 | the plan resolves to the closure and lists what was not asked for |
| `SyncPreference.AcceptedIffClosed` | src/contexts/versioning/sync-preference.service.ts:163-169 | nothing is auto-included exactly when the request is closed, and then the resolved list is the requested one element for element |
| `SyncPreference.PreviewedClosureIsAccepted` | src/contexts/versioning/sync-preference.service.ts:112-118 | resubmitting the closure that a preview returned is accepted for the same edges and resolves to itself |
| `SyncPreference.SyncPreferenceService.Preview` | src/contexts/versioning/sync-preference.service.ts:112-118 | plans without storing; each error in its own case |
| `SyncPreference.SyncPreferenceService.Checked` | src/contexts/versioning/sync-preference.service.ts:163-169 | accepted exactly when valid and closed; otherwise refused for an unknown repository, an unsafe name, or exactly the excluded dependencies in order |
| `SyncPreference.SyncPreferenceService.Upsert` | src/contexts/versioning/sync-preference.service.ts:88-110 | stores the normalised list exactly when accepted, keeping the first creation time; otherwise changes nothing and says why |
| `SyncPreference.SyncPreferenceService.ValidatePushOptions` | src/contexts/versioning/sync-preference.service.ts:120-144 | an override of the tables, then the stored list, then the whole repository decides acceptance, errors and the normalised list; the mode is the override, the stored one, or schema and data |
| `LoginRateLimiter.WindowBound` | src/contexts/auth/login-rate-limiter.ts:22-45 | each window counts at most maxAttempts allowed attempts of its key |
| `LoginRateLimiter.IntervalBound` | src/contexts/auth/login-rate-limiter.ts:22-45 | every half-open interval of length windowMs holds at most 2·maxAttempts − 1 allowed attempts per key |
| `LoginBurst.IntervalBoundIsReached` | src/contexts/auth/login-rate-limiter.ts:22-45 | for every limit and every window of at least two milliseconds there is a run that reaches that bound |
| `LoginRateLimiter.BlockedUntilWindowEnds` | src/contexts/auth/login-rate-limiter.ts:22-35 | a blocked key stays blocked for exactly the rest of its window, whatever is tried meanwhile, and is then allowed |
| `LoginRateLimiter.Limiter.RecordAttempt` | src/contexts/auth/login-rate-limiter.ts:37-45 | the attempt is counted in a window that has not elapsed, and other keys are untouched |
| `LoginRateLimiter.Limiter.AssertAllowed` | src/contexts/auth/login-rate-limiter.ts:22-35 | passes exactly when allowed, drops an elapsed window, and otherwise names the end of the window |
| `Csv.ParseCsvLine` | src/contexts/versioning/dolt-diff-cli.ts:40-64 | the index loop computes the scanner on which the round trips are proved |
| `Csv.LineRoundTrip` | src/contexts/versioning/dolt-diff-cli.ts:40-64 | reading any non-empty list of fields written as section 2 of RFC 4180 says gives the fields back |
| `Csv.LinesRoundTrip` | src/contexts/versioning/dolt-diff-cli.ts:66-71 | trimming and splitting give back lines that have no edge white space, no line break and are not empty |
| `Csv.ParseCsv` | src/contexts/versioning/dolt-diff-cli.ts:66-88 | the row loop computes the table on which the round trip is proved |
| `Csv.TableRoundTrip` | src/contexts/versioning/dolt-diff-cli.ts:66-88 | for distinct headers a printed table reads back with each value under its header |
| `CircuitBreaker.CounterIsTrailingRun` | src/contexts/addons/addon-circuit-breaker.ts:27-50 | however calls overlap, the counter is the length of the trailing run of failures in completion order |
| `CircuitBreaker.DisabledIffTripped` | src/contexts/addons/addon-circuit-breaker.ts:43-50 | an addon is disabled exactly when some such run has reached the limit |
| `CircuitBreaker.RequestStarts` | src/contexts/addons/addon-circuit-breaker.ts:27-41 | a request starts the handler exactly when its addon is not disabled, and does not touch the counters |
| `CircuitBreaker.DisabledIsForever` | src/contexts/addons/addon-circuit-breaker.ts:27-41 | once disabled an addon stays disabled and none of its handlers starts again |
| `CircuitBreaker.AddonCircuitBreaker.Wrap` | src/contexts/addons/addon-circuit-breaker.ts:27-41 | a call that no other overlaps: 503 without starting the handler exactly when disabled, 200 and a zero count, or 500, disabled exactly when this failure reaches the limit |
| `CircuitBreaker.AddonCircuitBreaker.RecordFailure` | src/contexts/addons/addon-circuit-breaker.ts:43-50 | counts the failure, disables and notifies at the limit |

## Left out

- HTTP routers, schemas, cookies, the admin UI, configuration, key generation and bootstrap: plumbing around the modelled services.
- Ed25519, JWT, Argon2 and SHA-256: a hash is an arbitrary function of the bytes.
- Sessions, users and role grants: plain table updates; the ticket model reads roles that change at any time.
- Licences and the addon loader: straight-line checks.
- `BootstrapRateLimiter`: the same transition system as the login limiter.
- What the NAS adapter writes: it renames into place before `processNext` compares checksums, and an older job's retry can overwrite a newer copy, so nothing is stated about the file contents on the NAS.
- Worker crashes and store exceptions in the middle of a claim: the code has no recovery for them.
- The staging file after `finish` has set `closed`: a later `abort` does not delete it, and the model says so (`Abort`).
- The transport of heartbeats, the pull stream over gRPC, timers, error reporting hooks and the listing of dead letters.
- The regular expressions on branch names and refs: calls that fail them throw before the mutex is taken.
- Reading the new commit's hash by date after a commit: the model returns the commit that was made.
- What lies between the commands of one stage of an interleaved push (DDL, TRUNCATE and row import; add and commit; checkout and creation): no result turns on it.
- An empty branch name in an import, which skips the checkout; the route refuses one.
- Pushes and pulls on a history with merge commits: a merge may change schemas and drop tables, so `PullReplay` is about histories that imports alone have made; listing commits (`CommitGraph`) is about any.
- The table contents of commits made by interleaved pushes: loads share one working set, so only the place of a commit is stated.
- Column types, keys and constraints inside a schema: a schema is its DDL text.
- A table that `exportTable` cannot resolve and skips: on a listed commit its changed tables resolve.
- `mapDiffType`, `toNullable` and the log and merge readers, which repeat the CSV reader.
- A CSV header named `__proto__`, which a JavaScript object does not store as an ordinary key.
- Growth of the mutex map: entries are never removed.
- `SyncProtocol.DeadLetterTookEveryBackoff`: measures between the failures as the worker saw them, not between the UPDATE statements, for which it is false when a worker is slow to write.
- `TransferJobs.TransferJobStore.ClaimNextEligible`: under interference the claimed row is among the oldest of the table that the SELECT saw, not of the one it claims from.
