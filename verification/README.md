# Couchbase engines: a verified model

This project models the concurrent and stateful core of two storage engines and proves what every
run of it keeps. It covers the in-memory checkpoint log with its cursors, the life cycle of buckets
behind the proxy engine, the flusher, the deletion of a vbucket in row ranges, the swapping
multi-producer queue, the generic hash table and the task dispatcher.

**Checkpoints.** `QueuedItems` and `CheckpointLog` say what each operation of a checkpoint manager
means, on values. `CheckpointManagers` is the manager itself: objects with linked list nodes, a key
index with mutation ids, cursors that point at nodes, and counters, all updated in place. Each
method is proved to have the effect `CheckpointLog` gives it. `CheckpointRuns`, `CheckpointReplay`
and `CheckpointHistory` prove the invariant of every run and that no cursor ever loses a mutation.
`CheckpointUpkeep` says when checkpoints are opened and freed and what the returned flags and numbers
mean. `CheckpointCounters` proves exactly when the fast counters equal the real counts. Three operations
can make them drift. Each has a concrete state in which it does, and a condition that is necessary
and sufficient for it not to.

**Buckets.** `BucketProtocol` is a transition system: any number of threads, each with a list of
pending atomic steps, over handles, connections, two locks and a condition variable. The other
`Bucket...` files prove one inductive invariant. `BucketTheorems` states what follows in every
reachable state, `BucketRequests` ties deletions to the commands of the run, and `BucketSolo` says what
an operation achieves when nothing overlaps it.

**Flusher.** `FlushQueue` has the deduplication of a batch, `FlushLedger` what may happen between
fetches, and `Flushers` the flusher as a class over any number of vbuckets. The storage layer is an
oracle that writes, skips or rejects each write. Results are about what has left the write queue.

**Deletion in ranges.** `VBucketDeletion` has the list of ranges, split and merged in place, and the
task that walks it with any outcomes and any measured times.

**Swapping queue.** `AtomicQueueProtocol` is a transition system at the level of single reads,
compare-and-swaps and atomic additions. `AtomicQueueCalls` says what the calls of a run ask for;
`AtomicQueueTheorems`, `AtomicQueueOrder`, `AtomicQueueDrain` and `AtomicQueueProgress` hold the results.

**Hash table and dispatcher.** `GenHashes` is a class over an array of linked chains, with a run-level
refinement of a map from keys to stacks. `Dispatchers` has the two priority queues.

Where the code and its comments disagree the model follows the code. A connection that disconnects
while it is reserved keeps its flag and its reference (bucket_engine.c, lines 1039-1044), although the
header comment says otherwise.

A drain on shutdown does one pass and then passes until no flush is under way. If a flush is already
under way when the drain begins, nothing is fetched again, and what was accepted meanwhile can stay
behind. `DrainCanMiss` is such a run on the class. `Drain` states the exact condition, on the state
before the call.

Check everything with `dafny verify dfyconfig.toml`.

## Model

| member | source | states |
|---|---|---|
| `CheckpointHistory.NoMutationLost` | cbase/ep-engine/ep-engine-1.8.0/checkpoint.cc:32-1098 | on every run of every operation in any order from a fresh manager, replaying what a cursor has returned followed by what is still ahead of it gives, key by key, the last operation accepted: since the last clear for the persistence cursor; for a TAP cursor, among the entries from the checkpoint it was registered for on and all that was accepted since |
| `CheckpointHistory.StepHonest` | cbase/ep-engine/ep-engine-1.8.0/checkpoint.cc:513-1098 | one operation of any kind keeps every cursor honest about every key |
| `CheckpointRuns.StepKeepsInv` | cbase/ep-engine/ep-engine-1.8.0/checkpoint.cc:200-247 | structural invariant of every run: ids strictly increase, only the newest checkpoint is open, each list is a dummy, a start entry, then mutations with distinct keys; the item count and every cursor stay consistent |
| `CheckpointReplay.EnqueueRemaining` | cbase/ep-engine/ep-engine-1.8.0/checkpoint.cc:44-80 | requeueing a key is invisible to a cursor: what is ahead of it is what was ahead without the old entry for the key, then the new entry |
| `CheckpointReplay.ReplayMerge` | cbase/ep-engine/ep-engine-1.8.0/checkpoint.cc:111-146 | a merged list replays like the older list followed by the newer one |
| `CheckpointReplay.ReplayMergeAll` | cbase/ep-engine/ep-engine-1.8.0/checkpoint.cc:640-659 | merging a whole run of checkpoints replays like the run |
| `CheckpointRuns.CollapseClosedKeepsAhead` | cbase/ep-engine/ep-engine-1.8.0/checkpoint.cc:640-705 | collapsing closed checkpoints keeps the log and takes no key from what is ahead of any cursor |
| `CheckpointRuns.CleanUpKeepsAhead` | cbase/ep-engine/ep-engine-1.8.0/checkpoint.cc:513-610 | the whole periodic clean-up does the same |
| `CheckpointRuns.RollbackMeaning` | cbase/ep-engine/ep-engine-1.8.0/checkpoint.cc:1068-1097 | a rollback leaves one open checkpoint with the requested id that replays like all the old ones, with every cursor at its beginning with offset 0 |
| `CheckpointReplay.NextRemaining` | cbase/ep-engine/ep-engine-1.8.0/checkpoint.cc:830-900 | one fetch hands out the first entry ahead and leaves the others ahead; it hands out nothing exactly when nothing is ahead, the newest checkpoint is that of a backfill, or the cursor takes closed checkpoints only and the next entry is in the open one |
| `CheckpointReplay.FetchRemaining` | cbase/ep-engine/ep-engine-1.8.0/checkpoint.cc:743-775 | fetching everything hands out exactly what is ahead, in order, and leaves nothing ahead |
| `CheckpointFacts.LeadingUnrefBeforeCursors` | cbase/ep-engine/ep-engine-1.8.0/checkpoint.cc:567-583 | the checkpoints the clean-up frees lie strictly before every cursor |
| `CheckpointFacts.DropFrontKeepsInv` | cbase/ep-engine/ep-engine-1.8.0/checkpoint.cc:584-593 | freeing them subtracts exactly their entries from the total and from every offset |
| `CheckpointRuns.RegisterMeaning` | cbase/ep-engine/ep-engine-1.8.0/checkpoint.cc:377-444 | a registered cursor has ahead everything from the beginning of the checkpoint asked for, of the newest one if there is none, or what it had ahead if it stands in that checkpoint and need not start over; the result says whether there is such a checkpoint; nothing else changes |
| `CheckpointUpkeep.CheckOpenMeaning` | cbase/ep-engine/ep-engine-1.8.0/checkpoint.cc:957-974 | afterwards the newest checkpoint is not full, and it is empty if the old one was too old or a new one was forced; one that is neither full nor old stays |
| `CheckpointUpkeep.OpenIfDueMeaning` | cbase/ep-engine/ep-engine-1.8.0/checkpoint.cc:497-537 | the clean-up opens a checkpoint exactly if the vbucket may and the newest one is full, old or has to make room for memory |
| `CheckpointUpkeep.CleanUpMeaning` | cbase/ep-engine/ep-engine-1.8.0/checkpoint.cc:562-607 | the checkpoints before every cursor go, all of them or one at a time where closed ones are kept; then a cursor stands in the front one; the number returned is that of their mutations and of a start and an end entry for each; a vbucket that collapses is left with at most two |
| `CheckpointUpkeep.StartMeaning` | cbase/ep-engine/ep-engine-1.8.0/checkpoint.cc:1030-1098 | after a checkpoint-start message the newest checkpoint carries the id; when a checkpoint is appended, relabelled or left alone by a rollback, and when the flag is set |
| `CheckpointUpkeep.StepBackMeaning` | cbase/ep-engine/ep-engine-1.8.0/checkpoint.cc:1010-1018 | a TAP cursor on an end entry gets that entry ahead of it again, and nothing else changes |
| `CheckpointUpkeep.LastMutationExact` | cbase/ep-engine/ep-engine-1.8.0/checkpoint.cc:1020-1028 | the test for the last mutation of a checkpoint is right if and only if no end entry buried by a rollback comes next |
| `CheckpointUpkeep.LastMutationCanBeWrong` | cbase/ep-engine/ep-engine-1.8.0/checkpoint.cc:1020-1028 | a checkpoint in which the test is wrong |
| `CheckpointUpkeep.NextFlagMeaning` | cbase/ep-engine/ep-engine-1.8.0/checkpoint.cc:830-900 | the flag of a single fetch: not set without an entry, and otherwise right under the same condition |
| `CheckpointCounters.CountersExactOnRuns` | cbase/ep-engine/ep-engine-1.8.0/checkpoint.cc:44-80 | on every precise run the total equals the number of entries and every offset the number of entries at or before the cursor |
| `CheckpointCounters.StepExact` | cbase/ep-engine/ep-engine-1.8.0/checkpoint.cc:377-445 | from exact counters, an operation leads to exact counters if and only if a condition known before the call holds; the three exceptions are registration, rollback and collapse |
| `CheckpointCounters.BacklogIsNextFetch` | cbase/ep-engine/ep-engine-1.8.0/checkpoint.hh:407-411 | with exact counters the advertised backlog is the number of entries the next fetch for persistence returns |
| `CheckpointCounters.QueueReportsGrowth` | cbase/ep-engine/ep-engine-1.8.0/checkpoint.cc:707-741 | with exact counters, queueing reports growth exactly when the persistence cursor has one more entry ahead |
| `CheckpointCounters.RegisterExact` | cbase/ep-engine/ep-engine-1.8.0/checkpoint.cc:395-442 | registering keeps the counters exact if and only if the wanted checkpoint is there or the newest one is open |
| `CheckpointCounters.CollapseClosedExact` | cbase/ep-engine/ep-engine-1.8.0/checkpoint.cc:684-701 | collapsing keeps the counters exact if and only if the newest closed checkpoint has every key of the older ones or no cursor stands in front of its first mutation |
| `CheckpointCounters.AddsNothing` | cbase/ep-engine/ep-engine-1.8.0/checkpoint.cc:653-659 | a merge adds nothing exactly when every key is already there |
| `CheckpointCounters.RollbackExact` | cbase/ep-engine/ep-engine-1.8.0/checkpoint.cc:1068-1097 | a rollback keeps the counters exact if and only if no end entry gets buried under merged mutations |
| `CheckpointCounters.RegistrationDrifts` | cbase/ep-engine/ep-engine-1.8.0/checkpoint.cc:402-412 | a reachable shape in which registering leaves an offset wrong |
| `CheckpointCounters.RollbackDrifts` | cbase/ep-engine/ep-engine-1.8.0/checkpoint.cc:1068-1097 | a state in which a rollback leaves the total wrong |
| `CheckpointCounters.CollapseDrifts` | cbase/ep-engine/ep-engine-1.8.0/checkpoint.cc:688-701 | a state in which collapsing leaves an offset wrong |
| `CheckpointNodes.LookupIsScan` | cbase/ep-engine/ep-engine-1.8.0/checkpoint.cc:38-42 | the key index finds exactly what a scan of the list finds |
| `CheckpointNodes.MidsComparePositions` | cbase/ep-engine/ep-engine-1.8.0/checkpoint.cc:47-54 | comparing mutation ids is comparing positions in the list |
| `CheckpointMerging.MergePass` | cbase/ep-engine/ep-engine-1.8.0/checkpoint.cc:120-141 | one pass of the merge loop keeps the list, the index and the mutation ids in agreement |
| `CheckpointMerging.MergeAllStep` | cbase/ep-engine/ep-engine-1.8.0/checkpoint.cc:653-659 | merging one more older checkpoint into the result is the merge of one more checkpoint |
| `CheckpointManagers.Checkpoint.QueueDirty` | cbase/ep-engine/ep-engine-1.8.0/checkpoint.cc:32-109 | the list, the index, the counter and every cursor after queueing an entry |
| `CheckpointManagers.Checkpoint.MergePrevCheckpoint` | cbase/ep-engine/ep-engine-1.8.0/checkpoint.cc:111-146 | the merged list is the mutations of the older checkpoint that are missing here, in order, then the own ones; the result is their number; mutation ids still increase along the list |
| `CheckpointManagers.Checkpoint.PopBackCheckpointEndItem` | cbase/ep-engine/ep-engine-1.8.0/checkpoint.cc:22-26 | takes off a trailing end entry and nothing else |
| `CheckpointManagers.CheckpointManager.constructor` | cbase/ep-engine/ep-engine-1.8.0/checkpoint.cc:254-260 | a new manager: one open checkpoint and the persistence cursor at its beginning |
| `CheckpointManagers.CheckpointManager.Enqueue` | cbase/ep-engine/ep-engine-1.8.0/checkpoint.cc:32-109 | implements the specified effect of queueing a mutation on list, total and all cursors |
| `CheckpointManagers.CheckpointManager.CloseOpenCheckpoint` | cbase/ep-engine/ep-engine-1.8.0/checkpoint.cc:230-247 | closes the open checkpoint with that id, if it is the newest, and adds its end entry |
| `CheckpointManagers.CheckpointManager.AddNewCheckpoint` | cbase/ep-engine/ep-engine-1.8.0/checkpoint.cc:200-223 | closes the newest checkpoint if need be and appends an open one |
| `CheckpointManagers.CheckpointManager.SetOpenCheckpointId` | cbase/ep-engine/ep-engine-1.8.0/checkpoint.cc:187-198 | relabels the newest checkpoint and its start entry |
| `CheckpointManagers.CheckpointManager.CheckOpenCheckpoint` | cbase/ep-engine/ep-engine-1.8.0/checkpoint.cc:957-974 | opens a new checkpoint when forced, full or old, and returns the id of the one it closed |
| `CheckpointManagers.CheckpointManager.QueueDirty` | cbase/ep-engine/ep-engine-1.8.0/checkpoint.cc:707-741 | implements the specified queueing, with the checkpoint it may open first, and reports whether the backlog grew |
| `CheckpointManagers.CheckpointManager.NumItemsForPersistence` | cbase/ep-engine/ep-engine-1.8.0/checkpoint.hh:407-411 | the fast backlog is the specified one |
| `CheckpointManagers.CheckpointManager.MoveCursorToNextCheckpoint` | cbase/ep-engine/ep-engine-1.8.0/checkpoint.cc:937-955 | moves to the beginning of the next checkpoint exactly when the current one is closed and not the newest |
| `CheckpointManagers.CheckpointManager.GetAllItemsFromCurrentPosition` | cbase/ep-engine/ep-engine-1.8.0/checkpoint.cc:743-775 | returns exactly the entries ahead, leaves the cursor on the newest entry, and returns the id of the newest checkpoint before the open one |
| `CheckpointManagers.CheckpointManager.GetAllItemsForPersistence` | cbase/ep-engine/ep-engine-1.8.0/checkpoint.cc:777-796 | implements the specified fetch for the persistence cursor, offset included |
| `CheckpointManagers.CheckpointManager.GetAllItemsForTAPConnection` | cbase/ep-engine/ep-engine-1.8.0/checkpoint.cc:798-816 | implements the specified fetch for a TAP cursor; an unknown name gets nothing |
| `CheckpointManagers.CheckpointManager.NextItemFromOpenedCheckpoint` | cbase/ep-engine/ep-engine-1.8.0/checkpoint.cc:883-900 | one step in the open checkpoint |
| `CheckpointManagers.CheckpointManager.NextItemFromClosedCheckpoint` | cbase/ep-engine/ep-engine-1.8.0/checkpoint.cc:859-881 | one step in a closed checkpoint, or into the next one |
| `CheckpointManagers.CheckpointManager.NextItem` | cbase/ep-engine/ep-engine-1.8.0/checkpoint.cc:830-857 | implements the specified single fetch, with the flag for the last mutation of a checkpoint |
| `CheckpointManagers.CheckpointManager.IsLastMutationItem` | cbase/ep-engine/ep-engine-1.8.0/checkpoint.cc:1020-1028 | tells whether the cursor stands on the last mutation of its checkpoint |
| `CheckpointManagers.CheckpointManager.RegisterTAPCursor` | cbase/ep-engine/ep-engine-1.8.0/checkpoint.cc:377-445 | places the cursor as specified, takes its old registration away, and tells whether the checkpoint was found |
| `CheckpointManagers.CheckpointManager.RemoveTAPCursor` | cbase/ep-engine/ep-engine-1.8.0/checkpoint.cc:447-471 | removes the cursor and its registration and nothing else |
| `CheckpointManagers.CheckpointManager.DecrTapCursorFromCheckpointEnd` | cbase/ep-engine/ep-engine-1.8.0/checkpoint.cc:1010-1018 | steps back from an end entry |
| `CheckpointManagers.CheckpointManager.IsCheckpointCreationForHighMemUsage` | cbase/ep-engine/ep-engine-1.8.0/checkpoint.cc:497-511 | decides as specified |
| `CheckpointManagers.CheckpointManager.RemoveInvalidCursorsOnCheckpoint` | cbase/ep-engine/ep-engine-1.8.0/checkpoint.cc:612-638 | never finds a registration to remove |
| `CheckpointManagers.CheckpointManager.RemoveClosedUnrefCheckpoints` | cbase/ep-engine/ep-engine-1.8.0/checkpoint.cc:513-610 | implements the specified clean-up and returns the number of entries freed |
| `CheckpointManagers.CheckpointManager.CollapseClosedCheckpoints` | cbase/ep-engine/ep-engine-1.8.0/checkpoint.cc:640-705 | implements the specified collapse, with list nodes merged in place and cursors moved |
| `CheckpointManagers.CheckpointManager.Clear` | cbase/ep-engine/ep-engine-1.8.0/checkpoint.cc:902-918 | implements the specified clear: one new checkpoint, every cursor at its beginning |
| `CheckpointManagers.CheckpointManager.ResetCursors` | cbase/ep-engine/ep-engine-1.8.0/checkpoint.cc:920-935 | puts every cursor at the beginning of the single checkpoint with offset 0 and registers it there |
| `CheckpointManagers.CheckpointManager.RollbackTo` | cbase/ep-engine/ep-engine-1.8.0/checkpoint.cc:1068-1097 | implements the specified rollback in place |
| `CheckpointManagers.CheckpointManager.CheckAndAddNewCheckpoint` | cbase/ep-engine/ep-engine-1.8.0/checkpoint.cc:1030-1098 | implements the specified reaction to a checkpoint-start message, in all its branches |
| `BucketTheorems.NextKeepsInv` | cbase/bucket-engine/bucket-engine-1.8.0/bucket_engine.c:520-2434 | every step of every thread keeps the invariant of the bucket protocol |
| `BucketTheorems.CallsNeverOverlapShutdown` | cbase/bucket-engine/bucket-engine-1.8.0/bucket_engine.c:723-789 | in every reachable state, while a thread has been given a handle and has not released it, the bucket is neither stopped nor unlinked and no thread destroys its engine |
| `BucketTheorems.RefusedOnlyIfMarked` | cbase/bucket-engine/bucket-engine-1.8.0/bucket_engine.c:764-789 | in every reachable state, a thread that has been turned away met a bucket that is marked for deletion |
| `BucketSolo.CallAlone` | cbase/bucket-engine/bucket-engine-1.8.0/bucket_engine.c:764-789 | an engine call that nothing overlaps is let in exactly if the bucket of its connection runs |
| `BucketSolo.SelectAlone` | cbase/bucket-engine/bucket-engine-1.8.0/bucket_engine.c:1122-1141 | from any reachable state, a select that nothing overlaps leaves its connection bound to the running bucket of that name, to a new one if it may create it, and else to none; the table changes in no other way |
| `BucketSolo.DeleteAlone` | cbase/bucket-engine/bucket-engine-1.8.0/bucket_engine.c:2125-2148 | a delete that nothing overlaps, of a bucket nobody is in, stops the bucket, notes the requester and the flag, and starts the shutdown thread |
| `BucketSolo.ShutdownAlone` | cbase/bucket-engine/bucket-engine-1.8.0/bucket_engine.c:1327-1428 | from any reachable state, a shutdown thread that nothing overlaps takes its own bucket out of the table and frees it, or sleeps if there are references left |
| `BucketRequests.DeletedAsAsked` | cbase/bucket-engine/bucket-engine-1.8.0/bucket_engine.c:2125-2138 | on every run, when a shutdown has started there is a delete command for that bucket, with the connection and the flag noted in the handle |
| `BucketTheorems.RefcountIsExact` | cbase/bucket-engine/bucket-engine-1.8.0/bucket_engine.c:520-572 | the reference count is 1 if the handle is in the table, plus connected flags and reservations, plus references in flight; the client count is the number of threads holding one |
| `BucketTheorems.FreedIsUnreachable` | cbase/bucket-engine/bucket-engine-1.8.0/bucket_engine.c:1395-1410 | outside a global stop, a freed handle is in no table, no connection counts on it and no pending step touches it |
| `BucketTheorems.FreedOnce` | cbase/bucket-engine/bucket-engine-1.8.0/bucket_engine.c:1406-1410 | a handle is freed at most once |
| `BucketTheorems.ZeroStaysZero` | cbase/bucket-engine/bucket-engine-1.8.0/bucket_engine.c:899-916 | after removal from the table a count of zero never rises again |
| `BucketTheorems.CountsStayNonNegative` | cbase/bucket-engine/bucket-engine-1.8.0/bucket_engine.c:520-532 | no decrement takes a count below zero |
| `BucketTheorems.DeletionNotLost` | cbase/bucket-engine/bucket-engine-1.8.0/bucket_engine.c:1430-1448 | a bucket marked for deletion has a client inside or a thread about to start its shutdown, so no quiet state is stuck |
| `BucketTheorems.StartedOnce` | cbase/bucket-engine/bucket-engine-1.8.0/bucket_engine.c:2125-2138 | at most one shutdown is started per handle, and by then the requester and the force flag are recorded |
| `BucketTheorems.UnlinksItself` | cbase/bucket-engine/bucket-engine-1.8.0/bucket_engine.c:1365-1371 | the shutdown thread removes its own handle from the table and no other |
| `BucketTheorems.StatesOnlyAdvance` | cbase/bucket-engine/bucket-engine-1.8.0/bucket_engine.c:1430-1448 | a bucket never goes back to an earlier state |
| `BucketTheorems.NoLostWakeup` | cbase/bucket-engine/bucket-engine-1.8.0/bucket_engine.c:1395-1404 | a shutdown thread asleep although nothing keeps it waiting has a broadcast coming |
| `BucketTheorems.NoLostSignal` | cbase/bucket-engine/bucket-engine-1.8.0/bucket_engine.c:1284-1293 | the stopping thread asleep although no shutdown runs has a signal coming |
| `BucketTheorems.SoundStop` | cbase/bucket-engine/bucket-engine-1.8.0/bucket_engine.c:1284-1293 | once the stop has waited, no shutdown thread is inside its body and none can enter it |
| `FlushQueue.Deduplicate` | cbase/ep-engine/ep-engine-1.8.0/ep.cc:1403-1431 | going backwards with a set of seen keys keeps exactly the last set or delete of each key, and counts the ones left out |
| `FlushQueue.DedupReplays` | cbase/ep-engine/ep-engine-1.8.0/ep.cc:1403-1431 | the kept writes replay like the whole batch |
| `FlushQueue.ReorderKeeps` | cbase/ep-engine/ep-engine-1.8.0/ep.cc:1447-1454 | any permutation of a deduplicated batch is still one |
| `FlushLedger.IdsGrow` | cbase/ep-engine/ep-engine-1.8.0/checkpoint.cc:187-223 | the id of the newest checkpoint goes back exactly with a clear, a relabel or a rollback to a lower id |
| `FlushLedger.LedgerStepOk` | cbase/ep-engine/ep-engine-1.8.0/checkpoint.cc:1030-1098 | whatever other threads do between fetches, short of a clear or of going back to the id of the last fetch, what the cursor has handed out stays what the log said then, and later mutations go into checkpoints above that id |
| `FlushLedger.LedgerFetchOk` | cbase/ep-engine/ep-engine-1.8.0/checkpoint.cc:743-775 | a fetch hands over everything accepted so far, and its id is below every checkpoint that can still take a mutation |
| `Flushers.Flusher.BeginFlush` | cbase/ep-engine/ep-engine-1.8.0/ep.cc:1347-1445 | a flush starts exactly when something is queued or ahead, and then everything ahead is fetched, deduplicated and appended for every vbucket |
| `Flushers.Flusher.FlushSome` | cbase/ep-engine/ep-engine-1.8.0/ep.cc:1500-1531 | each write leaves the queue for good or goes to the rejects, in order, and none is lost; a failed begin rejects all |
| `Flushers.Flusher.FlushOne` | cbase/ep-engine/ep-engine-1.8.0/ep.cc:1951-1990 | takes the first write; it leaves the queue for good, written or skipped, or it is rejected |
| `Flushers.Flusher.RequeueRejectedItems` | cbase/ep-engine/ep-engine-1.8.0/ep.cc:1456-1464 | rejected writes go back to the queue, all of them, in order |
| `Flushers.Flusher.CompleteFlush` | cbase/ep-engine/ep-engine-1.8.0/ep.cc:1466-1498 | publishes the ids, and keeps published ids honest |
| `Flushers.Flusher.DoFlush` | cbase/ep-engine/ep-engine-1.8.0/flusher.cc:225-267 | one pass; ids are published only when no write and no reject is pending, and a flush that ends publishes the id of every live vbucket |
| `Flushers.Flusher.Drain` | cbase/ep-engine/ep-engine-1.8.0/flusher.cc:201-206 | with other threads going on between the passes, a finished drain has taken off the queue everything accepted in a live vbucket before it began, if and only if no flush was under way or nothing ahead of the persistence cursor changed a key |
| `Flushers.Flusher.TransitionState` | cbase/ep-engine/ep-engine-1.8.0/flusher.cc:80-100 | the state changes exactly along the allowed transitions |
| `Flushers.GrantedRequests` | cbase/ep-engine/ep-engine-1.8.0/flusher.cc:26-72 | a stop is granted until one has been, a pause to a flusher that runs, a resume to one that is paused or starts up |
| `Flushers.StopIsFinal` | cbase/ep-engine/ep-engine-1.8.0/flusher.cc:52-72 | after a stop only the stopped state follows, once |
| `Flushers.Flusher.StepTask` | cbase/ep-engine/ep-engine-1.8.0/flusher.cc:143-199 | one run of the task moves only along allowed transitions, forgets no write that is done, and reaches stopped only with nothing pending; what was accepted before the run is then handled, on a live vbucket, if and only if no flush was under way or nothing new lay ahead of the persistence cursor |
| `Flushers.Flusher.PublishedIsDurable` | cbase/ep-engine/ep-engine-1.8.0/ep.cc:1466-1482 | in every valid state, what has left the queue is for every key what the log said after a number of mutations that covers every mutation accepted into a checkpoint up to the published id |
| `Flushers.HonestAfterRollback` | cbase/ep-engine/ep-engine-1.8.0/checkpoint.cc:1068-1097 | a published id stays honest through a rollback, and through every later run that takes no id back, if and only if the rollback went to a higher id; and so does the id of the last fetch, which a flush under way is about to publish |
| `Flushers.CaughtUpMeans` | cbase/ep-engine/ep-engine-1.8.0/flusher.cc:225-239 | the last fetch had everything if and only if nothing ahead of the persistence cursor changes a key |
| `Flushers.NothingAheadSuffices` | cbase/ep-engine/ep-engine-1.8.0/checkpoint.cc:1125-1135 | a persistence cursor at the end of the open checkpoint has nothing ahead that changes a key |
| `Flushers.DrainCanMiss` | cbase/ep-engine/ep-engine-1.8.0/flusher.cc:201-206 | a run of the flusher in which a mutation accepted while a flush is under way is still missing when the drain that follows has finished |
| `VBucketDeletion.SplitMeaning` | cbase/ep-engine/ep-engine-1.8.0/ep.hh:160-169 | splitting a range keeps the ids covered and the order |
| `VBucketDeletion.MergeMeaning` | cbase/ep-engine/ep-engine-1.8.0/ep.hh:176-231 | merging covers everything covered before, keeps the ranges increasing and disjoint, and moves neither the first start nor the last end |
| `VBucketDeletion.VBDeletionChunkRangeList.SplitChunkRange` | cbase/ep-engine/ep-engine-1.8.0/ep.hh:160-169 | does the specified split in place, or nothing |
| `VBucketDeletion.VBDeletionChunkRangeList.FindClosestChunkByRangeSize` | cbase/ep-engine/ep-engine-1.8.0/ep.hh:224-231 | finds the first range that ends beyond the wanted size |
| `VBucketDeletion.VBDeletionChunkRangeList.MergeChunkRanges` | cbase/ep-engine/ep-engine-1.8.0/ep.hh:176-199 | does the specified merge in place |
| `VBucketDeletion.VBDeletionChunkRangeList.RemoveChunkRanges` | cbase/ep-engine/ep-engine-1.8.0/ep.hh:209-215 | keeps every range but those strictly between the two positions, and changes nothing when the positions coincide, the first is the end or the ranges there overlap |
| `VBucketDeletion.AdjustedInProportion` | cbase/ep-engine/ep-engine-1.8.0/ep.cc:256-263 | the next size is to the last one as the time allowed is to the time taken, rounded down, and at least 100; it stays without a range or a time |
| `VBucketDeletion.SlowerIsSmaller` | cbase/ep-engine/ep-engine-1.8.0/ep.cc:256-263 | a chunk that took longer is never followed by a larger size |
| `VBucketDeletion.AdjustedTowardsThreshold` | cbase/ep-engine/ep-engine-1.8.0/ep.cc:256-263 | a size of 100 or more does not grow after a chunk over the time allowed nor shrink after one within it |
| `VBucketDeletion.CreateRangeList` | cbase/ep-engine/ep-engine-1.8.0/ep.hh:266-286 | the ranges are those of consecutive groups of the given number of rows, the last one smaller; they are increasing and disjoint, contain every row and end at the last row |
| `VBucketDeletion.VBucketDeletionCallback.Callback` | cbase/ep-engine/ep-engine-1.8.0/ep.cc:228-295 | one attempt: a failure changes nothing; a success extends the deleted ranges, shrinks what is left and adapts the next range; at the end every row was covered |
| `VBucketDeletion.VBucketDeletionCallback.Attempts` | cbase/ep-engine/ep-engine-1.8.0/ep.cc:228-295 | for any sequence of outcomes and times, the deleted ranges are increasing and disjoint, each success deletes one more, attempts go on until one is invalid or the task is finished, successes are bounded by the distance from the first to the last row, and a finished task covered every row |
| `AtomicQueueSteps.NextKeepsInv` | cbase/ep-engine/ep-engine-1.8.0/atomic.hh:436-539 | every atomic step of every thread keeps the invariant of the swapping queue |
| `AtomicQueueTheorems.OneHolder` | cbase/ep-engine/ep-engine-1.8.0/atomic.hh:525-539 | in every reachable state each inner queue is held by exactly one slot or one thread |
| `AtomicQueueTheorems.NoDanglingPointer` | cbase/ep-engine/ep-engine-1.8.0/atomic.hh:517-539 | nothing refers to an inner queue that was never made |
| `AtomicQueueTheorems.ReturnDisplacesNull` | cbase/ep-engine/ep-engine-1.8.0/atomic.hh:163-172 | swapping an inner queue back always displaces null and never has to be retried |
| `AtomicQueueTheorems.NeverNull` | cbase/ep-engine/ep-engine-1.8.0/atomic.hh:436-488 | the inner queue a thread works on is never null and every slot index is within the array |
| `AtomicQueueTheorems.PushedAsAsked` | cbase/ep-engine/ep-engine-1.8.0/atomic.hh:436-450 | on every run, the items a producer has pushed and those its call under way has yet to push are, in order, the ones its calls asked for |
| `AtomicQueueTheorems.NothingLost` | cbase/ep-engine/ep-engine-1.8.0/atomic.hh:436-488 | on every run, each item the calls asked to push is output, queued or yet to be put, as often as it was asked for |
| `AtomicQueueProgress.CallsFinish` | cbase/ep-engine/ep-engine-1.8.0/atomic.hh:436-488 | from every reachable state, whatever the others are in the middle of, a call that they leave alone comes to its end |
| `AtomicQueueTheorems.SizeCoversVisible` | cbase/ep-engine/ep-engine-1.8.0/atomic.hh:498-514 | the size is never below the number of items in the slots, hence never negative |
| `AtomicQueueTheorems.EmptyMeansEmpty` | cbase/ep-engine/ep-engine-1.8.0/atomic.hh:503-507 | when the queue says it is empty no slot has an item |
| `AtomicQueueTheorems.SizeIsExact` | cbase/ep-engine/ep-engine-1.8.0/atomic.hh:436-488 | the size is the number of queued items plus exactly what each thread has yet to add or subtract |
| `AtomicQueueTheorems.QuietSizeIsExact` | cbase/ep-engine/ep-engine-1.8.0/atomic.hh:510-514 | with no call under way the size is the number of queued items |
| `AtomicQueueOrder.FirstInFirstOut` | cbase/ep-engine/ep-engine-1.8.0/atomic.hh:436-488 | with one collecting thread the output restricted to a producer is a prefix of what its calls asked to push |
| `AtomicQueueDrain.CollectsEverything` | cbase/ep-engine/ep-engine-1.8.0/atomic.hh:456-488 | a collection that nothing overlaps leaves no item behind, and has then output exactly what all calls before it asked to push |
| `GenHashes.GenHash.constructor` | cbase/bucket-engine/bucket-engine-1.8.0/genhash.c:71-92 | an empty table of any positive size |
| `GenHashes.GenHash.Store` | cbase/bucket-engine/bucket-engine-1.8.0/genhash.c:103-126 | the value becomes the newest of its key; other keys are untouched |
| `GenHashes.GenHash.FindEntry` | cbase/bucket-engine/bucket-engine-1.8.0/genhash.c:128-142 | finds the first entry of the key in its chain, or none if there is none |
| `GenHashes.GenHash.Find` | cbase/bucket-engine/bucket-engine-1.8.0/genhash.c:144-156 | returns the newest value of the key, or nothing |
| `GenHashes.GenHash.Update` | cbase/bucket-engine/bucket-engine-1.8.0/genhash.c:158-177 | replaces the newest value, or stores; the older values stay |
| `GenHashes.GenHash.FunUpdate` | cbase/bucket-engine/bucket-engine-1.8.0/genhash.c:179-207 | the same with a function of the newest value or of the default |
| `GenHashes.GenHash.Delete` | cbase/bucket-engine/bucket-engine-1.8.0/genhash.c:218-251 | uncovers the value below and returns 1, or returns 0 |
| `GenHashes.GenHash.DeleteAll` | cbase/bucket-engine/bucket-engine-1.8.0/genhash.c:253-261 | returns the number of values of the key and leaves none |
| `GenHashes.GenHash.Iter` | cbase/bucket-engine/bucket-engine-1.8.0/genhash.c:263-278 | visits every entry once, the values of each key newest first |
| `GenHashes.GenHash.Clear` | cbase/bucket-engine/bucket-engine-1.8.0/genhash.c:280-297 | leaves no value and everything duplicated is freed |
| `GenHashes.GenHash.Size` | cbase/bucket-engine/bucket-engine-1.8.0/genhash.c:311-317 | the number of entries, which is duplications minus frees |
| `GenHashes.GenHash.IterKey` | cbase/bucket-engine/bucket-engine-1.8.0/genhash.c:328-347 | visits exactly the values of the key, newest first |
| `GenHashes.GenHash.SizeForKey` | cbase/bucket-engine/bucket-engine-1.8.0/genhash.c:319-326 | the height of the stack of the key |
| `GenHashes.Replay` | cbase/bucket-engine/bucket-engine-1.8.0/genhash.c:103-297 | on every run, for any hash function and table size, the table holds the stacks that a map from keys to stacks holds |
| `GenHashes.StackWithout` | cbase/bucket-engine/bucket-engine-1.8.0/genhash.c:231-243 | unlinking the first entry of a key uncovers the value below and touches no other key |
| `GenHashes.Unlinked` | cbase/bucket-engine/bucket-engine-1.8.0/genhash.c:231-243 | relinking past an entry leaves a well-formed chain without it |
| `Dispatchers.Dispatcher.Schedule` | cbase/ep-engine/ep-engine-1.8.0/dispatcher.cc:166-185 | the new task joins the future queue |
| `Dispatchers.Dispatcher.MoveReadyTasks` | cbase/ep-engine/ep-engine-1.8.0/dispatcher.cc:60-71 | exactly the tasks due before the time read are in the ready queue, and no task is lost |
| `Dispatchers.Dispatcher.NextTask` | cbase/ep-engine/ep-engine-1.8.0/dispatcher.cc:50-53 | the most urgent ready task, or the one due first |
| `Dispatchers.Dispatcher.Choose` | cbase/ep-engine/ep-engine-1.8.0/dispatcher.cc:76-119 | a task that runs is due and alive and has the smallest priority number among the queued tasks due before the time read; a dead one is dropped; the dispatcher sleeps only when nothing is due |
| `Dispatchers.Dispatcher.Done` | cbase/ep-engine/ep-engine-1.8.0/dispatcher.cc:121-135 | a task that wants to run again is queued again, any other is finished |
| `Dispatchers.Dispatcher.Serve` | cbase/ep-engine/ep-engine-1.8.0/dispatcher.cc:152-216 | any requests of other threads in turn: the tasks known, their cancellations and the way to stop are those the requests amount to, and a task that is not queued wakes when the last request to snooze it says |
| `Dispatchers.FirstStopDecides` | cbase/ep-engine/ep-engine-1.8.0/dispatcher.cc:152-164 | the first stop decides how the dispatcher stops, whatever is asked after it, and nothing but a stop stops it |
| `Dispatchers.TasksKept` | cbase/ep-engine/ep-engine-1.8.0/dispatcher.cc:166-216 | no request loses or changes a known task but by cancelling it, and a task is cancelled exactly if its cancellation was asked for |
| `Dispatchers.Dispatcher.TakeTurn` | cbase/ep-engine/ep-engine-1.8.0/dispatcher.cc:76-135 | one turn with requests while its task runs: the task was alive, due and most urgent, it is finished or queued again at the time it was last snoozed to, and something due is passed over only for dropping a cancelled task |
| `Dispatchers.Dispatcher.Run` | cbase/ep-engine/ep-engine-1.8.0/dispatcher.cc:73-150 | the whole thread, with other threads scheduling, cancelling, snoozing and stopping between and during turns: the tasks known and the way to stop are those the requests served amount to, so a stop is never missed and the first one decides how; no turn follows a stop; and when the dispatcher has stopped both queues are empty and every task ever scheduled was finished or is one that need not be run |
| `Dispatchers.Dispatcher.CompleteNonDaemonTasks` | cbase/ep-engine/ep-engine-1.8.0/dispatcher.cc:228-276 | both queues are emptied and exactly the live non-daemon tasks that are must-complete or not forced off are run, each once, ready ones by priority and then the others by due date |
| `Dispatchers.Dispatcher.Shutdown` | cbase/ep-engine/ep-engine-1.8.0/dispatcher.cc:146-149 | the end of the thread: exactly the queued live tasks that are no daemons and are must-complete or not forced off are finished as well; every other scheduled task need not be run |
| `Dispatchers.Dispatcher.OnePlace` | cbase/ep-engine/ep-engine-1.8.0/dispatcher.cc:76-135 | a scheduled task is in exactly one of: a queue, running, finished, dropped |

## Left out

- Online update and hot reload of a checkpoint manager, which skip entries on purpose and add other kinds of entry.
- The default engine, cookies reserved with no bucket selected, and the TAP iterator shim of the proxy engine.
- BucketSolo.DeleteAlone: is about a bucket nobody is in; with clients inside, DeletionNotLost says that the last one out starts the shutdown.
- BucketSolo.SelectAlone: the engine of a bucket to be created can be set up.
- BucketProtocol.CanRun: the assertion of the code that a connection with reservations does not change its bucket is a condition on the step; a run that would fail the assertion is one in which the step waits.
- What the stop of the proxy engine does after its wait loop, and bucket creation that fails half way.
- The storage layer itself: transactions, commit retries and the body of a single set or delete. A write is written, skipped or rejected by an oracle, and nothing is claimed about exactly-once writes or about when a commit reaches the disk.
- Flushers.Flusher.BeginFlush: restore mode, TAP backfill items and flush-all are not modelled.
- Flushers.Flusher.FetchEverything: the fetch over all vbuckets is one step; in the code each vbucket is fetched under its own lock, and other threads may run between two of these fetches.
- Flushers.Flusher.TransitionState: forced flusher shutdown, which may take any transition, is not modelled, nor is the rescheduling of the task.
- Flushers.Flusher.PublishedIsDurable: is about runs in which no other thread clears a checkpoint manager, and none rolls back or relabels to the id of the last fetch or below; HonestAfterRollback shows that a rollback below a published id breaks it.
- Flushers.Flusher.FlushOne: a skipped write counts as off the queue, as it does in the code.
- Flushers.Flusher.Drain: takes the answers of the storage layer as a finite list, because a storage layer that rejects for ever keeps the drain going for ever.
- CheckpointManagers.CheckpointManager.AddNewCheckpoint: requires an id above the newest one, as all its callers pass.
- CheckpointManagers.CheckpointManager.SetOpenCheckpointId: requires that the new id stays above the id of the checkpoint before, as its callers arrange.
- CheckpointManagers.CheckpointManager.RegisterTAPCursor: names of TAP cursors differ from the reserved name of the persistence cursor.
- CheckpointManagers.CheckpointManager.CheckOpenCheckpoint: does not model the truncation of checkpoint ids to an int; offsets and counts do not wrap either.
- A list iterator is modelled by the identity of the node it points at.
- CheckpointManagers.CheckpointManager.CheckAndAddNewCheckpoint: of the flags for replica clients, only those that decide about collapsing and keeping closed checkpoints are there; the last closed checkpoint id kept for replica clients is not.
- VBucketDeletion.VBucketDeletionCallback.Callback: does not model 64-bit overflow in the product that adapts the chunk size.
- AtomicQueueProtocol.Initial: at most 100 threads use one queue, the size of its slot array, which the code does not check.
- AtomicQueueOrder.FirstInFirstOut: the order is claimed for one collecting thread only; with two the outputs go to different places.
- GenHashes.GenHash.constructor: takes the table size; the estimate of a prime from the expected number of entries is not modelled, nor the size of a value after an update.
- GenHashes.GenHash.Find: key equality is equality, and the hash function is any total function; the hash function for strings is not modelled.
- Dispatchers.Dispatcher.Snooze: requires that the task is not queued, since a queued task that moves in time is not put into order again.
- Dispatchers.Dispatcher.CompleteNonDaemonTasks: a task runs to its end in one step; its repeated runs, and requests of other threads while the queues are emptied, are not modelled.
- Waking a task, which queues a copy with no wake time set; the job logs; the sleep of the idle task.
- Command parsing, statistics, logging, configuration, TAP connections and the client tools.
