# Shishi, verified

A Dafny model of the parts of the to-do application where a mistake would lose
or duplicate somebody's work, with proofs that it does not happen:

- **The sync protocol.** The server's `sync` handler, log pruning and bootstrap,
  and the web client with its outbox, its shadow of the server and its visible
  rows. `server.dfy` and `mutations.dfy` say what one request does to an
  account, `handler.dfy` proves the handler as written against that, `client.dfy`
  and `repository.dfy` do the same for the client, and `protocol.dfy` runs any
  number of clients and other devices against one account, with requests and
  answers lost, repeated and delayed, log and receipts pruned, devices revoked
  and snapshots read row by row while others write. `guarantees.dfy` states what
  holds in every reachable state: convergence, exactly-once execution, no
  sequence mismatch, a gapless redo log; `projection.dfy` and `views.dfy` say what
  a client's shadow and rows mean, and `spelling.dfy` and `refusal.dfy` are runs
  after which a client shows something else than the server has. `engine.dfy` is the loop of
  `SyncEngine` with its termination, `bootstrap.dfy` the paged snapshot,
  `rebase.dfy` the comparison of a rebase with reading change by change,
  `merge.dfy` the first login, `pruning.dfy` retention.
- **Accounts on disk.** `switch.dfy`, `replace.dfy`, `migration.dfy` and
  `installation.dfy` list the durable writes of each operation, cut them
  anywhere, and prove what the next start finds.
- **Three smaller cores.** Optimistic concurrency on shared lists
  (`shared.dfy`), recurring tasks (`recurrence.dfy` over `calendar.dfy`), and
  iCalendar export and import (`ics.dfy`, `icsfile.dfy`; sections 3.1 and 3.3.11
  of RFC 5545). `tags.dfy` is the tag normalisation of the server.

How to read it: a row is a deleted flag and a map of columns; a change is a
create, patch, delete or restore with a field map. One transaction is one step.
Code that works in loops over mutable tables is a class or a method with loop
invariants, proved equal to a function; the theorems are about that function.
Checks by libraries (dates, time zones, UUIDs, recurrence size, Unicode
lower-casing) are parameters, so every theorem holds whatever they answer; of
the parsers of days and ids it is only assumed that they read what they print.
Tables hold parsed values, and the log of a patch or a restore the text that was
sent. `dafny verify dfyconfig.toml` verifies the project.

## Where the code falls short of what it promises

Each of these is proved, with the exact condition or an example.

- `SafeIffInOrder`, `OutOfOrderExample`: pruning by `created_at` is safe exactly
  when creation times do not decrease with `server_seq`. `created_at` is the start
  of the transaction, so a transaction that waits for the account lock can log a
  later number with an earlier time; pruning between the two leaves a gap that an
  accepted cursor does not see.
- `Converges`, `ClientsAgree`, `DisagreementIsReachable`: a patch logs days and
  ids as they were sent, bootstrap prints them parsed, and the client shows no
  day that is not spelled YYYY-MM-DD. After another device sent `2024-1-1`, a
  client that read the log shows no due date and one that loaded the tables
  afterwards shows 2024-01-01. Two caught-up clients show the same row exactly if
  every cell that only one of them knows from the log is shown alike in both
  spellings; where all patches are spelled as the tables print them they do
  (`AgreeWhenCanonical`).
- `UnknownIsRefused`, `RefusedStaysVisible`: a row whose create was rejected stays
  visible after the rejection is cleared, because a row without a shadow is not
  reprojected. A caught-up client shows a row the server does not have exactly if
  an operation that was not settled when it last loaded the tables wrote the row;
  loading them again makes it go.
- `DiscardRejected`: discarding a single rejection always fails, because its
  transaction does not include the shadow table it reads.
- `NormalizedAreAccepted`, `AcceptedAsGiven`: the tag `##a` normalises to `#a`,
  which the check before storage refuses. It refuses an accepted list exactly when
  some tag in it, its white space squeezed, has a second `#` after the first.
- `TextRoundTrips`: a note with a backslash directly before `n` or `N`, or with
  CR LF, does not survive export and import.
- `UntouchedRowsAreCloudRows`, `MergeKeepsLocalTombstone`: a row deleted on both
  sides with different columns keeps the local ones at first login. Those rows,
  and no others, stay unlike the server's, until they are written again.
- `ColumnsConverge`: an empty colour or icon is stored as empty text but shown
  as none.
- `FailedSwitchBlocksOthers`, `PreparingAgainLifts`: a failed switch keeps every
  switch to a third account from being prepared until the failed target itself is
  prepared again (and that is aborted or carried out).
- `FirstSaveCanBlock`: without a registry in place a crash in a save can make
  every later load report corruption. It does exactly when the directory was empty
  and the temporary file is half written, or when artefacts held one registry and
  the temporary file is complete with another.
- `AmbiguousCanBlock`: a first start that crashes leaves a state that no later
  start accepts exactly when the source is ambiguous and the crash comes between
  the two saves of its state.
- `VanishedSource`, `VerifiedCopyIsForgotten`: when the source and the registry
  are gone, a start opens the default account on an empty database exactly if a
  target id is noted and the migration has not begun, has failed, or is under way
  to a cloud account. In the last case a verified copy of that account may be on
  disk; it stays, and the registry does not name it.
- `LoadSnapshot`: a snapshot of more than 5 000 500 rows is cut by the page guard
  and used as if it were whole.
- The documentation of the protocol (docs/sync-protocol.md) says a bootstrap
  drops outbox operations the server has processed; the code keeps them, and so
  does the model. They are acknowledged as already processed when sent again.

## Model

| member | source | states |
|---|---|---|
| Handler.SyncHandler.Sync | apps/api/src/sync.rs:116-451 | the handler, with receipts prefetched before the loop and running counters, answers and changes the tables exactly as handling each operation in turn against the live tables would; every error leaves the account as it was |
| Handler.RunOperations | apps/api/src/sync.rs:194-368 | the loop over a batch equals the operation-by-operation specification, although it looks receipts up in maps read before the loop |
| Handler.RunOperation | apps/api/src/sync.rs:232-368 | one turn of the loop, with the watermark of the start of the request and the running counter, decides as the live tables do |
| Handler.LookupsAgree | apps/api/src/sync.rs:194-231 | the receipt maps read before the loop agree with live lookups for every operation still to be processed |
| Handler.ValidateBatch | apps/api/src/sync.rs:463-490 | the one-pass check accepts exactly the batches of at most 100 operations with strictly increasing positive client_seq and distinct ids |
| Mutations.Merge | apps/api/src/mutation.rs:347-505 | a patch is accepted only if the resulting column values are all valid; the new values are the old ones overlaid with the patch, its ids and days parsed, while what is logged names the same fields and keeps their spelling (tags normalised) |
| Mutations.ApplyMutationEffect | apps/api/src/sync.rs:598-1026 | an accepted operation rewrites exactly one row, by the parsed values of what it logs, stamps it with the allocated sequence number and leaves a valid table; only a create adds a row |
| Mutations.CanonicalTwice | apps/api/src/mutation.rs:168-183 | parsing what the table prints gives the same value again |
| Mutations.ValidIsParsed | apps/api/src/mutation.rs:168-183 | stored columns are in parsed form, so what a create logs (the stored values) and what the table holds are spelled alike |
| TagRules.CleanTag | apps/api/src/mutation.rs:49-76 | the character loop with its pending space gives the text with white space squeezed and trimmed and one leading # dropped |
| TagRules.NormalizeTags | apps/api/src/mutation.rs:20-47 | the loop with its set of seen keys keeps the first spelling of each tag, and refuses empty, long, NUL-bearing or too many tags |
| TagRules.CleanTwice | apps/api/src/mutation.rs:49-76 | cleaning a cleaned tag again changes nothing exactly when it does not start with # |
| TagRules.NormalizedIsCanonical | apps/api/src/mutation.rs:11-47 | normalised tags are at most 20, each non-empty, at most 32 long and without NUL, no two equal but for case |
| TagRules.NormalizedOrigin | apps/api/src/mutation.rs:20-47 | every normalised tag is one of the given ones, cleaned |
| TagRules.NormalizedAreAccepted | apps/api/src/mutation.rs:207-217 | the check that tags are normalised before storage accepts the output of the normalisation itself exactly when no tag in it still starts with # |
| TagRules.HashIsLeft | apps/api/src/mutation.rs:49-76 | a cleaned tag still starts with # exactly when the squeezed raw tag starts with # and what follows it, trimmed, starts with # again |
| TagRules.AcceptedAsGiven | apps/api/src/mutation.rs:207-217 | in terms of the tags as given: an accepted list is refused when stored exactly when some given tag has two leading # |
| TagRules.TwoHashes | apps/api/src/mutation.rs:207-217 | such a tag: ##a normalises to #a, and #a to a |
| Ledger.ExecuteKeepsLedger | apps/api/src/sync.rs:277-366 | an applied operation appends one log entry with the next number, a rejected one changes no table and uses no number; the log stays a gapless redo log of the tables |
| Ledger.RevIsLastSeq | apps/api/src/sync.rs:277-305 | the server_rev of a row is the number of the last log entry naming it |
| Ledger.RedoReads | apps/api/src/sync.rs:277-387 | last writer wins in the tables: a column holds the parsed form of the last value logged for it since any earlier time, and what it held then if there is none; deleted flag and presence likewise |
| Guarantees.LogIsRedoLog | apps/api/src/sync.rs:277-387 | in every reachable state the log holds exactly the numbers from min_available_seq to next_server_seq - 1, redoing the whole history with its values parsed gives exactly the tables, and server_rev is the last entry naming the row |
| Batches.ProcessSettles | apps/api/src/sync.rs:232-260 | after a batch every one of its operations is settled: handling it again changes nothing and repeats its acknowledgement |
| Batches.SettledReplays | apps/api/src/sync.rs:232-260 | a whole batch of settled operations is a no-op that returns the same acknowledgements |
| Batches.SplitBatchIsOneBatch | apps/api/src/sync.rs:116-451 | sending b1, losing the answer, and then sending b1 ++ b2 reaches the same tables and returns the same answer as sending b1 ++ b2 once |
| Protocol.PageReads | apps/api/src/sync.rs:389-422 | a page read with an accepted cursor holds exactly the next entries of the history up to the limit, next_cursor is their last number, and has_more tells whether any is left |
| Devices.NoMismatch | apps/api/src/sync.rs:232-275 | an operation a device may send next or again is never refused as a sequence mismatch, and its acknowledgement is true |
| Devices.RunAccepted | apps/api/src/sync.rs:194-380 | a contiguous run of operations that starts no later than the watermark is accepted whole, executes exactly the new ones, and is acknowledged truthfully |
| Devices.ProcessElsewhere | apps/api/src/sync.rs:194-380 | serving one device changes nothing that the exactly-once bookkeeping of another device relies on |
| Protocol.StepKeeps | apps/api/src/sync.rs:116-451 | every step (first login, edit, request, delivery, loss, late retry, other devices, snapshot load, clearing of rejections, pruning, revocation) keeps the invariant of server and clients |
| Protocol.Invariant | packages/sync/src/index.ts:83-136 | the invariant holds in every state any run reaches |
| Protocol.ConnectKeeps | apps/app/src/adapters/web-repository.ts:1305-1588 | a first login on a fresh device, from a snapshot read row by row, establishes the client invariant |
| Protocol.DeliverKeeps | apps/app/src/adapters/web-repository.ts:1220-1303 | applying an answer, however old, keeps outbox, shadow and visible rows consistent with the server |
| Protocol.RebaseKeeps | apps/app/src/adapters/web-repository.ts:1590-1704 | loading a snapshot over a client with pending operations keeps the client invariant |
| Protocol.ServeOwn | apps/api/src/sync.rs:116-451 | any request of a client that starts at or before its watermark is refused only for an expired cursor, a revoked device or a closed account, and else told the truth about every operation and the next entries |
| Guarantees.NeverMismatched | apps/api/src/sync.rs:248-275 | over every run, no request of a client is ever refused as a sequence mismatch |
| Guarantees.RetryNeverMismatched | apps/api/src/sync.rs:232-260 | nor is any earlier request that arrives again, in whatever reachable state and after whatever receipts were pruned |
| Guarantees.OnceAndInOrder | apps/api/src/sync.rs:232-326 | the operations of a client enter the log at most once, in the order they were queued |
| Guarantees.AcknowledgedIsSettled | apps/api/src/sync.rs:232-366 | an operation that is no longer pending was executed exactly once: it is in the log exactly once, or it was rejected and is not in it |
| Guarantees.OutboxIsTail | apps/app/src/adapters/web-repository.ts:1075-1087 | the pending operations are a contiguous run of client_seq at the end of what was queued, and what is marked rejected was rejected by the server with that code and never logged |
| Guarantees.Converges | apps/app/src/adapters/web-repository.ts:1220-1303 | over every run, a client with nothing pending and its cursor at the head of the log shows every list, task and step of the server with the server's deleted flag and, cell by cell, the stored value or, if the cell was written since it loaded the tables, the last text logged for it; the row is the stored row exactly if each of those texts is shown as its parsed value is and the row is not one left deleted with other columns at first login |
| Guarantees.ClientsAgree | apps/app/src/adapters/web-repository.ts:1706-1735 | two such clients show a row of the server with the same deleted flag and, unless it was left deleted with other columns at a first login, show the same row exactly if each cell that one knows as logged and the other as parsed is shown alike |
| Guarantees.ConvergesWhenCanonical | apps/app/src/adapters/web-repository.ts:1220-1303 | if every patch and restore logged since the client loaded the tables is spelled as the tables print it, the client shows the stored row, but for one left deleted with other columns at first login |
| Guarantees.AgreeWhenCanonical | apps/app/src/adapters/web-repository.ts:1706-1735 | and two such clients show the same row |
| Guarantees.ColumnsConverge | apps/app/src/adapters/web-repository.ts:200-283 | the shown columns are the stored ones exactly when each cell known as logged is shown as it is stored and each cell known as stored can be shown (no empty colour or icon, no day that cannot be read) |
| Guarantees.OtherSpelling | apps/app/src/adapters/web-repository.ts:200-283 | a day sent as 2024-1-1: the client that reads it in the log shows no due date, the one that loads the tables shows 2024-01-01 |
| Spelling.DisagreementIsReachable | apps/api/src/sync.rs:783-826 | a run that ends so: another device creates a task and sends that day, one client reads the log, another logs in, and both have read everything |
| Guarantees.UnknownIsRefused | apps/app/src/adapters/web-repository.ts:1706-1709 | a row the server does not have is shown by such a client exactly if an operation that was not settled when the client last loaded the tables wrote it, and all operations of the client on it were rejected |
| Refusal.RefusedStaysVisible | apps/app/src/adapters/web-repository.ts:1190-1218 | a run for every change the server refuses: log in, edit, be refused, clear the refusal; the client is caught up, nothing is pending or refused, and the row is still shown |
| Refusal.UntitledStaysVisible | apps/api/src/sync.rs:741-783 | one of them: a task without a title |
| Guarantees.AnswerIsTracked | apps/app/src/adapters/web-repository.ts:1220-1303 | when an answer arrives each operation it acknowledges was sent, is acknowledged by what became of it, and is afterwards kept with its code if it was rejected and gone if it was not |
| Projection.CaughtBySnapshot | apps/api/src/bootstrap.rs:59-181 | a snapshot whose rows are each read at their own later time, followed by all changes after its cursor, shows every row as the row stored at the cursor rewritten by those changes |
| Projection.CaughtByPage | apps/app/src/adapters/web-repository.ts:1264-1291 | applying the next page to the shadow keeps this: shadow plus unread entries is the row stored when the tables were loaded plus all entries logged since |
| Projection.PiecedReads | apps/app/src/adapters/web-repository.ts:310-331 | what a client that loaded the tables at some time can know of a cell: the last text logged since then, or else the stored value |
| Projection.CaughtUpMirrors | apps/app/src/adapters/web-repository.ts:1706-1735 | a caught-up client without pending operations shows the server's row in that sense, and the stored row exactly on the stated condition |
| Projection.ShownAfterAnswer | apps/app/src/adapters/web-repository.ts:1245-1298 | after an answer every row without pending operations is the materialised shadow row, because exactly the affected rows are reprojected; a row left unlike its shadow stays so until then |
| Views.InformedAfterLogin | apps/app/src/adapters/web-repository.ts:1305-1588 | after a first login the rows shown are exactly those of the shadow and those a queued operation wrote, and a row no operation touches is the shadow's, but for those deleted on both sides |
| Views.InformedAfterAnswer | apps/app/src/adapters/web-repository.ts:1220-1303 | and stays so when an answer is applied |
| Views.InformedAfterRebase | apps/app/src/adapters/web-repository.ts:1590-1704 | and when a snapshot is loaded, after which no row is unlike its shadow |
| Projection.ShownIsStored | apps/app/src/adapters/web-repository.ts:200-283 | a shown row has exactly the stored mutable columns exactly when each stored value can be shown |
| Rows.ApplyToData | apps/app/src/adapters/web-repository.ts:285-331 | both copying loops over MUTABLE_FIELDS compute the same rewrite of a row |
| Rows.ReadReplay | apps/app/src/adapters/web-repository.ts:285-331 | last writer wins: after any sequence of changes each column, the deleted flag and the presence of a row hold the last value written to them, or what was there before |
| Rows.ReplayOverLaterState | apps/api/src/bootstrap.rs:59-181 | replaying changes that a loaded row already contains, followed by those it lacks, shows the same row as replaying all of them from before |
| Rows.SameViewIffSameRow | apps/app/src/adapters/web-repository.ts:200-283 | no reader can tell two rows apart exactly when they materialise to the same row |
| Repository.WebRepository.PutAndAppend | apps/app/src/adapters/web-repository.ts:1779-1803 | an edit stores its row and appends one pending operation with the next client_seq |
| Repository.WebRepository.SyncGetPending | apps/app/src/adapters/web-repository.ts:1075-1087 | the first pending operations in client_seq order, at least one slot whatever limit is asked |
| Repository.WebRepository.SyncApplyResult | apps/app/src/adapters/web-repository.ts:1220-1303 | the three loops settle acknowledgements, rewrite the shadow and reproject exactly the affected rows, as the specification of an answer says |
| Repository.WebRepository.SettleAcks | apps/app/src/adapters/web-repository.ts:1247-1262 | the loop over acknowledgements deletes applied operations, marks rejected ones and names the touched rows |
| Repository.WebRepository.ApplyChanges | apps/app/src/adapters/web-repository.ts:1264-1291 | the loop over changes rewrites the shadow in order and names the changed rows |
| Repository.WebRepository.ReprojectEntity | apps/app/src/adapters/web-repository.ts:1706-1735 | a row with a shadow becomes the shadow with the pending operations replayed; one without stays |
| Repository.WebRepository.SyncReplaceSnapshot | apps/app/src/adapters/web-repository.ts:1590-1704 | the outbox stays and is replayed over the new rows; shadow and cursor are the snapshot's |
| Repository.WebRepository.RebuildPending | apps/app/src/adapters/web-repository.ts:1664-1685 | the loop over rows with pending operations rebuilds each from the snapshot or, failing that, from the shown row |
| Repository.WebRepository.SyncInitializeCloud | apps/app/src/adapters/web-repository.ts:1305-1588 | cloud mode takes the snapshot; merge mode keeps the merged rows and queues the prepared operations numbered from 1 |
| Repository.WebRepository.ClearRejected | apps/app/src/adapters/web-repository.ts:1190-1218 | clearing the rejections drops exactly the rejected operations and reprojects the rows they touched |
| Client.ClearedIsPending | apps/app/src/adapters/web-repository.ts:1190-1218 | afterwards the pending operations are as before and nothing rejected is left |
| Client.ClearedKeepsUnknown | apps/app/src/adapters/web-repository.ts:1706-1709 | a row without a shadow, such as one whose create was rejected, stays as it is |
| Repository.WebRepository.DiscardRejected | apps/app/src/adapters/web-repository.ts:1123-1140 | discarding a single rejection changes nothing: its transaction does not include the shadow table that reprojecting reads, and is aborted |
| Client.ShadowReplays | apps/app/src/adapters/web-repository.ts:1264-1291 | the shadow after a list of changes is the replay of those changes on each row |
| Client.SettleRemoves | apps/app/src/adapters/web-repository.ts:1247-1262 | an acknowledgement takes exactly its own operation off the pending ones |
| Outbox.OutboxSettles | apps/app/src/adapters/web-repository.ts:1247-1262 | acknowledging the first operations of the outbox leaves exactly the later ones, and marks as rejected only what the server rejected |
| Outbox.SettleAllTracks | apps/app/src/adapters/web-repository.ts:1247-1262 | each acknowledged operation is afterwards kept with its code if it was rejected, and gone if it was applied or done before |
| Merge.MergeLocalTables | apps/app/src/adapters/web-repository.ts:1381-1544 | the four merge loops build the merged rows and the operations in list, task, step, day-plan order |
| Merge.MergeRow | apps/app/src/adapters/web-repository.ts:1414-1441 | one turn of a merge loop takes the stated decision on a row |
| Merge.DecisionSound | apps/app/src/adapters/web-repository.ts:1414-1441 | one decision: applying the prepared operation to the server row gives the same liveness and, when live, the same mutable fields as the merged row |
| Merge.MergeIsSound | apps/app/src/adapters/web-repository.ts:1381-1579 | applying all prepared operations to the cloud snapshot gives the same live entities with the same mutable fields as the merged local rows |
| Merge.MergeNumbersOnce | apps/app/src/adapters/web-repository.ts:1541-1574 | each entity gets at most one operation, numbered 1..n, lists before tasks before steps before day plans |
| Merge.MergeKeepsLocalTombstone | apps/app/src/adapters/web-repository.ts:1423-1427 | an example: a row deleted on both sides keeps the local columns and queues no operation, so its columns differ from the server's |
| Merge.UntouchedRowsAreCloudRows | apps/app/src/adapters/web-repository.ts:1414-1441 | a row of the cloud for which no operation is prepared differs from the cloud's row exactly when it is deleted on both sides with other columns here |
| Merge.LaterWins | apps/app/src/adapters/web-repository.ts:1414-1441 | of a row both sides have, a local deletion wins, else the side written later, else the cloud |
| Merge.OnlyLocal | apps/app/src/adapters/web-repository.ts:1402-1413 | a row only the client has is kept exactly when it is live and, for a day plan, its slot is free |
| Rebasing.RebaseAgrees | apps/app/src/adapters/web-repository.ts:1590-1735 | loading a later snapshot and reading the changes after its cursor projects a row the server knows as reading the missed changes one by one does, exactly if each cell that no pending operation writes, and that one way knows as it was logged and the other as it is stored, is shown alike; the outbox is untouched |
| Rebasing.RebaseKeepsPendingWrites | apps/app/src/adapters/web-repository.ts:1664-1685 | after a rebase each column written by a pending operation keeps its last pending value and all others take the snapshot's |
| Rebasing.RebaseRebuildsCreates | apps/app/src/adapters/web-repository.ts:1664-1685 | a row only the client has, with a pending create, is rebuilt from its pending operations alone |
| Engine.SyncEngine.Run | packages/sync/src/index.ts:83-181 | with no other writer the recursion terminates; unless access is denied it ends with nothing pending and the cursor at the head, having delivered every change after the starting cursor (or after the snapshot) once and in order; the rows then mirror the tables if they did before, or if a snapshot within the page guard was loaded |
| Engine.SyncEngine.Exchange | packages/sync/src/index.ts:83-110 | one round takes the first batch off the outbox and reads the next page, or is refused for a stated reason and changes nothing |
| Engine.SyncEngine.LoadSnapshot | packages/sync/src/index.ts:138-162 | the branch for an expired cursor leaves the outbox as it was and an accepted cursor at the head, and loads all rows exactly if there are at most 5 000 500; then the rows mirror the tables |
| Engine.WhyRefused | apps/api/src/sync.rs:142-192 | a request of a well-behaved client is refused exactly when the account is closed, its cursor expired or its device revoked, in that order |
| Engine.GuardSuffices | packages/sync/src/index.ts:141-148 | what the pages collect is the whole table exactly if it has as many rows, and a row is left exactly if it has more |
| Engine.Download | packages/sync/src/index.ts:141-148 | the page loop gives the whole table exactly if the guard allows its rows |
| Bootstrap.ServePage | apps/api/src/bootstrap.rs:41-182 | a page holds rows in key order, all after the continuation and created by the snapshot time, leaves none out in between, and has a continuation exactly when one is left |
| Bootstrap.PushRows | apps/api/src/bootstrap.rs:148-159 | the loop keeps the first rows of the query in order |
| Bootstrap.CollectPages | packages/sync/src/index.ts:141-148 | following the pages collects every row that existed at the first page, in order, each read at the time of its page; if the guard stops it a row is left |
| Bootstrap.NextPage | packages/sync/src/index.ts:144-148 | appending a page read later keeps the collected rows in order and complete up to the last key |
| Bootstrap.NoRowTwice | apps/api/src/bootstrap.rs:132-137 | no row is collected twice |
| Bootstrap.CollectedIsSnapshot | apps/api/src/bootstrap.rs:59-181 | what the pages collect is a snapshot in the protocol's sense: no row that existed at the cursor is missing and each is the server's row at some time from then on |
| Pruning.SelectBatch | apps/api/src/ops.rs:423-434 | the selection takes the earliest doomed entries by creation time, account and number, up to the batch size |
| Pruning.Retention.PruneBatch | apps/api/src/ops.rs:414-473 | one transaction deletes the batch and raises min_available_seq of exactly its accounts |
| Pruning.Retention.PruneChangeLog | apps/api/src/ops.rs:392-473 | the loop ends with every entry older than the cutoff gone, counts them and their accounts, raises exactly their smallest readable number, and keeps every account's log gapless if it was gapless and in order |
| Pruning.BatchIsPrefix | apps/api/src/ops.rs:423-451 | if creation times do not decrease with the number, a batch deletes a prefix of each account's log |
| Pruning.BatchPrunesOne | apps/api/src/ops.rs:447-466 | for one account a batch does what the protocol model calls pruning below a number |
| Pruning.BatchKeepsGapless | apps/api/src/ops.rs:414-473 | the log of every account stays exactly [min_available_seq, next_server_seq) |
| Pruning.MinNeverDecreases | apps/api/src/ops.rs:456-466 | min_available_seq never decreases, whatever the creation times |
| Pruning.SafeIffInOrder | apps/api/src/ops.rs:392-473 | pruning leaves no gap for any cutoff exactly when creation times do not decrease with the number |
| Pruning.OutOfOrderExample | apps/api/src/ops.rs:423-451 | such a log exists: gapless and out of order |
| Pruning.OutOfOrderLeavesGap | apps/api/src/ops.rs:423-466 | for any two entries out of order there is a cutoff after which a cursor that sync accepts misses an entry |
| Shared.SharedListHandler.HandleEdit | apps/api/src/shared.rs:371-556 | the handlers of tasks, members and the list check role, receipt and revision in that order, write, bump the revision and record a receipt; an error leaves the list as it was |
| Shared.SharedListHandler.HandleInvitation | apps/api/src/shared.rs:639-729 | answering an invitation is checked, replayed and recorded likewise, without an expected revision |
| Shared.Commit | apps/api/src/shared.rs:948-1007 | a write commits with the next revision and exactly one new receipt, naming that revision and the actor, under an id not used before; with a used id it fails |
| Shared.CreatedIsLinear | apps/api/src/shared.rs:266-309 | a new list starts at revision 1 with its receipt and its owner |
| Shared.ServeKeepsLinear | apps/api/src/shared.rs:266-1007 | every request keeps: exactly one receipt for each revision 1..revision, an active owner, and no invitation to ownership |
| Shared.WriteOrNothing | apps/api/src/shared.rs:371-1007 | a request either moves the list from exactly the revision it expected to the next one and records that, or changes nothing |
| Shared.ServeIsLocal | apps/api/src/shared.rs:371-1007 | a request changes no task and no member but the one it names, no invitation unless it is about one, and deletes the list only if it asks for that |
| Shared.PatchKeepsUnnamed | apps/api/src/shared.rs:371-470 | an accepted patch of a task gives each named column the checked new value and keeps every other one |
| Shared.OneWriterPerRevision | apps/api/src/shared.rs:1159-1164 | over a whole run at most one of the requests naming an expected revision succeeds, and it edits exactly that revision's state |
| Shared.ReplayChangesNothing | apps/api/src/shared.rs:962-986 | a request whose operation id has a receipt changes nothing |
| Shared.RetryIsIdempotent | apps/api/src/shared.rs:962-1007 | repeating a request that was applied, at any later time, changes nothing |
| Shared.RevisionsAscend | apps/api/src/shared.rs:948-960 | revisions never decrease and receipts are never lost or changed |
| Shared.AlwaysOwned | apps/api/src/shared.rs:730-820 | a list that is not deleted always has an active owner |
| Switch.DataRoot.PrepareAccountSwitch | crates/native-accounts/src/switch.rs:163-220 | which requests are refused, what is saved, and that an equal prepared switch is returned as it is |
| Switch.DataRoot.RequestAccountSwitch | crates/native-accounts/src/switch.rs:246-290 | only a matching prepared switch moves to RESTART_REQUIRED |
| Switch.DataRoot.AbortPreparedSwitch | crates/native-accounts/src/switch.rs:292-301 | only a prepared switch is aborted |
| Switch.DataRoot.FinishPendingSwitch | crates/native-accounts/src/switch.rs:303-323 | the journal goes only when verification is durable and the target active |
| Switch.DataRoot.RollbackPendingSwitch | crates/native-accounts/src/switch.rs:457-493 | FAILED is saved before the source is put back |
| Switch.DataRoot.RecoverPendingSwitch | crates/native-accounts/src/switch.rs:325-455 | each branch of the recovery write by write |
| Switch.RecoveryConverges | crates/native-accounts/src/switch.rs:325-455 | for a fixed verdict any chain of recoveries, each cut after any durable write, followed by a full one, leaves the disk as one uninterrupted recovery does |
| Switch.EveryWriteIsSafe | crates/native-accounts/src/switch.rs:163-493 | at every single write: the target becomes active only in the recovery that verified it and with VERIFYING_TARGET durable, the source comes back only under FAILED, and a journal goes only from PREPARED on the source or VERIFYING_TARGET on the target |
| Switch.RunsAreSafe | crates/native-accounts/src/switch.rs:163-493 | over all runs with crashes a journal has different source and target, the active account is one of the two, and PREPARED and RESTART_REQUIRED imply the source |
| Switch.RecoveryDecides | crates/native-accounts/src/switch.rs:325-455 | after a completed recovery a failed switch has its source active and a verified one its target, with a journal that finishing accepts |
| Switch.RollbackSticks | crates/native-accounts/src/switch.rs:457-493 | a rollback cut after any write is completed by the next recovery, whatever that finds about the target |
| Switch.PrepareAccepted | crates/native-accounts/src/switch.rs:163-220 | a switch can be prepared exactly when the target is another registered valid account and no journal names a different target |
| Switch.RequestGranted | crates/native-accounts/src/switch.rs:246-290 | a restart is granted exactly for the switch that was prepared, and only its phase changes |
| Switch.SwitchCompletes | crates/native-accounts/src/switch.rs:163-455 | prepare, request, recover any number of times cut anywhere, finish: a valid target ends active without a journal, an invalid one leaves the source active and FAILED |
| Switch.FailedSwitchBlocksOthers | crates/native-accounts/src/switch.rs:180-205 | in any run after a failed switch, with crashes anywhere and accounts registered meanwhile, no switch to a third account can be prepared as long as the failed target is not prepared again |
| Switch.PreparingAgainLifts | crates/native-accounts/src/switch.rs:180-205 | that preparation is accepted exactly when the target is valid, registered and the source is back, and once it is aborted every other account is accepted as usual |
| Replace.DataRoot.WriteJsonAtomic | crates/native-accounts/src/paths.rs:166-224 | write, sync and replace, step by step, and whether the save succeeded |
| Replace.DataRoot.ReplaceFile | crates/native-accounts/src/paths.rs:253-329 | the one-step replacement and the two-step fallback with its sidecar journal, its undo and its failure |
| Replace.DataRoot.LoadWithRecovery | crates/native-accounts/src/registry.rs:372-507 | loading recovers from the journal or from the only registry among the artefacts, saves it again, and reports which |
| Replace.SaveIsAtomic | crates/native-accounts/src/paths.rs:166-329 | a crash at any point of a save, whatever way it goes and whatever earlier crashes left, keeps the old or the new registry loadable |
| Replace.SaveOutcome | crates/native-accounts/src/paths.rs:253-329 | a successful save has the new registry in place, a failed one keeps the old one loadable |
| Replace.LoadIsStable | crates/native-accounts/src/registry.rs:372-507 | a crash at any point of the recovery leaves the next load the same registry, and a complete one has it in place |
| Replace.NeverLost | crates/native-accounts/src/registry.rs:372-507 | over any run of saves and loads cut anywhere a load finds a registry: the first one or one that was being saved |
| Replace.WithoutRegistry | crates/native-accounts/src/registry.rs:372-440 | with neither registry nor journal a load finds a registry exactly when the artefacts agree on one, and nothing exactly when there are none |
| Replace.FirstSaveCut | crates/native-accounts/src/registry.rs:372-440 | what a load finds after each cut of such a save, in terms of the complete artefacts there were, the registry saved and the number of steps |
| Replace.FirstSaveCanBlock | crates/native-accounts/src/paths.rs:183-213 | a save without registry and journal, cut anywhere, turns a directory that a load accepts into one that no load accepts or changes exactly when it was empty and the temporary file is half written, or held one registry in its artefacts and the temporary file is complete with another |
| Migration.DataRoot.Migrate | crates/native-accounts/src/migration.rs:684-880 | a run of the migration write by write and its outcome |
| Migration.DataRoot.CreateBackup | crates/native-accounts/src/migration.rs:882-928 | a backup equal to the source is reused, else made and noted |
| Migration.DataRoot.CreateTarget | crates/native-accounts/src/migration.rs:799-815 | an unequal target is moved aside, a missing one copied |
| Migration.DataRoot.Commit | crates/native-accounts/src/migration.rs:815-861 | COPY_VERIFIED is saved, then the registry, then the last two phases |
| Migration.StartResumes | crates/native-accounts/src/migration.rs:332-453 | from a durable target id on, a start cut after any write can be resumed and one that is not cut finishes with that account open |
| Migration.MigrationConverges | crates/native-accounts/src/migration.rs:332-863 | any number of starts cut anywhere and then a full one reach COMPLETE with the persisted id active, the target equal to the unchanged source, and no account added but the target and the default one |
| Migration.FirstStart | crates/native-accounts/src/migration.rs:726-785 | the target id is durable with the first write; a crash before it leaves the disk as it was |
| Migration.MigrationMovesLate | crates/native-accounts/src/migration.rs:810-860 | the active account moves only to the target, only after COPY_VERIFIED is durable and a verified copy is in place |
| Migration.AmbiguousCommitsNothing | crates/native-accounts/src/migration.rs:865-880 | an ambiguous source changes neither registry nor databases nor source, at whatever write it is cut |
| Migration.NoTargetNoProgress | crates/native-accounts/src/migration.rs:629-636 | without a persisted target id a start is refused and changes nothing |
| Migration.AmbiguousCanBlock | crates/native-accounts/src/migration.rs:865-928 | a first start cut after some write leaves a state that no later start gets out of exactly when its source is ambiguous and it was cut between the two saves of its state |
| Migration.BlockedForGood | crates/native-accounts/src/migration.rs:629-636 | such a state stays as it is under any number of starts |
| Migration.VanishedSource | crates/native-accounts/src/migration.rs:332-385 | when the source of a migration is gone, a start opens an account exactly if there is no registry and a target id is noted and the migration has not begun, has failed, or is under way to an account other than the default one; it is then the default account, on a database that classifying the source created empty, and the registry names no other; every other database stays as it was, another default one is moved aside; in all other cases nothing is written |
| Migration.VerifiedCopyIsForgotten | crates/native-accounts/src/migration.rs:629-675 | its worst case: the verified copy of a bound account stays on disk, and the registry that is committed does not name it |
| Installation.DataRoot.ResumeFreshInstallation | crates/native-accounts/src/migration.rs:502-604 | a fresh install resumed at any phase, write by write |
| Installation.InstallationConverges | crates/native-accounts/src/migration.rs:490-604 | installs cut after any write and then a full one end with the marker gone, a readable database and the registry saved; a readable database is never replaced |
| Recurrences.ComputeNextOccurrence | packages/domain/src/recurrence.ts:62-123 | the loops over candidates compute the specified next occurrence, or fail |
| Recurrences.FindWorkday | packages/domain/src/recurrence.ts:75-82 | the bounded search over days returns the first working one |
| Recurrences.FindMonth | packages/domain/src/recurrence.ts:91-106 | the bounded search over months returns the first that has the day |
| Recurrences.FindYear | packages/domain/src/recurrence.ts:107-121 | the bounded search over years returns the first whose month has the day |
| Recurrences.NormalizedIsNormal | packages/domain/src/recurrence.ts:18-58 | a normalised rule has its interval, days and anchors in range |
| Recurrences.NextWorkday | packages/domain/src/recurrence.ts:75-82 | the next workday is the least later one |
| Recurrences.NextWeekly | packages/domain/src/recurrence.ts:83-90 | weekly with interval 1 gives the least later date on a chosen weekday, at most seven days ahead |
| Recurrences.NextMonth | packages/domain/src/recurrence.ts:91-106 | monthly with interval 1 never fails and lands exactly on the day of the first later month that has it, at most two months ahead |
| Recurrences.NextMonthly | packages/domain/src/recurrence.ts:91-106 | a monthly rule lands on its day in the first of its months that has it; the 120 months tried are enough: it fails exactly when none of its months, however late, has the day |
| Recurrences.NextYearly | packages/domain/src/recurrence.ts:107-121 | a yearly rule lands on its day in the first of its years that has it; the 400 years tried are enough: it fails exactly when none of its years, however late, has the day |
| Recurrences.NextInWeeks | packages/domain/src/recurrence.ts:83-90 | with any interval a weekly rule gives the least chosen day left in the week, or else the least chosen day of the week that many weeks on |
| Recurrences.NextIsLater | packages/domain/src/recurrence.ts:62-123 | every next occurrence is a real day strictly later than its base |
| Recurrences.SeriesNeverRepeats | packages/domain/src/recurrence.ts:148-180 | in calendar mode a series keeps one id and never repeats an occurrence key |
| Recurrences.SeriesStep | packages/domain/src/recurrence.ts:158-180 | the due dates of a series strictly increase and rule and series id stay |
| Calendar.NumbersFollowCalendar | packages/domain/src/dates.ts:24-51 | day numbers order days as the calendar does, and different days have different numbers |
| Calendar.AddDaysNumber | packages/domain/src/dates.ts:37-41 | adding days moves the day number by as many |
| Calendar.AddMonthsClamped | packages/domain/src/dates.ts:43-51 | adding months lands on the month that many months on, at the old day or the last day of a shorter month |
| Ics.TextRoundTrips | packages/application/src/export.ts:51-108 | unescaping an escaped text gives it back exactly when it has no CR LF and no backslash directly before n or N (section 3.3.11 of RFC 5545) |
| Ics.FoldIcsLine | packages/application/src/export.ts:85-95 | the folding loop splits into the specified physical lines |
| Ics.Chunks | packages/application/src/export.ts:85-95 | every physical line has at most 75 units (section 3.1 of RFC 5545) |
| Ics.UnfoldFolded | packages/application/src/export.ts:82-105 | unfolding the folded output gives back exactly the content lines |
| IcsFile.ExportCalendar | packages/application/src/export.ts:46-83 | the loop that pushes lines produces the specified calendar |
| IcsFile.PushEvent | packages/application/src/export.ts:65-79 | the lines of one event, with the optional ones exactly when they apply |
| IcsFile.TaskOfBlock | packages/application/src/export.ts:109-124 | the block of an exported task gives back its title, note and due date |
| IcsFile.CalendarRoundTrips | packages/application/src/export.ts:46-125 | importing an exported calendar gives title, note and due date of every live dated task, in order |

## Left out

- Guarantees.Converges: says nothing about day plans, because reprojecting one deletes any other plan in the same slot.
- Guarantees.ClientsAgree: day plans are left out for the same reason.
- IcsFile.CalendarRoundTrips: the condition on tasks (trimmed titles, no CR LF, no false break, no END:VEVENT) is shown sufficient, not necessary; for a single text `Ics.TextRoundTrips` has both directions.
- Ics.Chunks: counts UTF-16 units as the code does, where RFC 5545 counts octets; a Dafny `char` is a whole code point, so a text outside the basic plane is shorter here than there and a fold inside a surrogate pair does not occur.
- IcsFile.ExportCalendar: the day after the due date and the time stamp are parameters.
- Engine.SyncEngine.Run: says nothing of the rows after a snapshot that the page guard cut.
- Bootstrap.CollectedIsSnapshot: assumes that `created_at` of rows logged before the cursor is not after the snapshot time and that rows are never hard-deleted.
- Pruning.SelectBatch: no row is skipped as locked; the dry run only counts.
- Shared.OneWriterPerRevision: answering an invitation names no revision, so it is left out of that statement and covered by `Shared.WriteOrNothing`.
- Spelling of instants (`remind_at`, `completed_at`), whose log text and stored text differ as those of days do: they are compared as points in time. Ids of rows are taken as parsed, and JSON objects as values.
- Migration.FirstStart: assumes that the email by which a source is classified is the one its snapshot names; both are read from the same row.
- Migration.AmbiguousCanBlock: assumes the same.
- Fresh UUIDs are pairs of device and counter, and devices of different accounts are different; the id of an operation therefore tells who drew it.
- SQL, IndexedDB, locks, isolation and constraint names: a committed transaction is one step, an error rolls it back, a savepoint restores the tables.
- The order of a client's outbox is the order it was written in, which is that of `client_seq`; the sort by `client_seq` is not modelled.
- `syncSetEnabled` (operations with status `local`), `importData`, `clearAll`, device rotation, session tokens and `syncClearAccountBinding`.
- Clock columns of rows (`createdAt`, `updatedAt`, the time of deletion); the merge compares the time stamps it is given.
- Local cleaning of names and titles: an edit stores any row beside the operation it queues.
- `needsBootstrap`, error texts, the offline state and metrics of the engine.
- Continuation tokens are trusted records; parsing of cursors and request bodies.
- Two-step replacement of the switch journal and of the migration and installation files: their saves are atomic here.
- The contents of accounts.json beyond the active account and the registered ids (switch), the ids and emails (migration); fingerprints are equality of contents.
- Live databases after the migration is complete, and switching accounts after it.
- Purging of accounts and other retention jobs in apps/api/src/ops.rs.
- Titles, dates and texts of shared tasks are checked by a parameter; members' profiles and notifications are not modelled.
- Recurrence anchored at completion has no ordering claim; years above 9999, which the source cannot spell, are ordinary years here.
- Time zones, natural-language dates, CSV export, search, counts, reminders, push, mail, authentication, the user interface and the native client's own store.
