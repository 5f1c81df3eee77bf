# Board-state engine: model and proofs

The server keeps the elements of open boards in Redis and writes them behind to Postgres. Mutations
are applied under a per-board lock; every write marks the ids it changed and raises a dirty epoch; a
flush snapshots the epoch, writes the marked rows in one transaction and clears the markers by
compare-and-clear. This project models that engine and the smaller engines around it, and proves what
they promise over every run, every interleaving and every input.

`dafny verify dfyconfig.toml` checks all of it.

## Files

| file | what it models |
|---|---|
| `Elements.dfy`, `OrderedMap.dfy` | board elements as JSON records, the row codec, JavaScript Maps |
| `Cascade.dfy` | containment and the cascade of a delete |
| `BoardState.dfy`, `BoardService.dfy` | the Redis keys of a board, change sets, the service object |
| `FlushProtocol.dfy` | the dirty-epoch flush as a state machine: writers, one flusher, crashes |
| `TwoFlushers.dfy` | two flushers of two processes, in both modes |
| `LockEnforcement.dfy`, `Processor.dfy`, `Batch.dfy`, `BatchVerdicts.dfy`, `MutationProcessor.dfy` | lock verdicts and the mutation processor, specification and methods |
| `AtMostOnce.dfy`, `ChangeLog.dfy` | resubmissions; catch-up |
| `Eviction.dfy`, `LoadEvict.dfy`, `MutationLock.dfy` | the keys of an eviction; eviction and competing loads; the distributed lock and the local promise chain |
| `SoloMode.dfy` | presence and the solo/collab switch |
| `PatchTranslation.dfy`, `Duplication.dfy` | PATCH requests as batches; board duplication |
| `MoveCoalescing.dfy`, `MoveFlush.dfy` | debounced moves of the tick manager and the CRDT rooms, and their flush |
| `RefreshTokens.dfy`, `Preview.dfy` | refresh-token families; preview layout |

A specification function says what an operation does to a value; the methods and classes, in the
shape of the source, are proved against it; the lemmas prove what the source promises about it.

## Where the code differs from its intent

Each of these is a proved lemma, with the exact condition under which the code does meet the intent.

- The recorded flushed sequence may name a change that is not in Postgres, exactly when a number up to it is still pending (`FlushedSequenceIsDurableIff`, `FlushedSequenceMayRunAhead`).
- The incremental flush drops an element whose id is the empty string and clears its marker; every other unmarked id is safe (`EmptyIdIsNeverFlushed`, `UnmarkedIdsAreDurable`).
- The scan of an eviction also matches the locks of the board. Deleting the mutation lock lets a second task in exactly when one is inside (`EvictionIsSafeIffNobodyInside`); deleting the load lock, or letting it expire, lets a second loader in exactly when one is inside (`LockLossIsSafeIff`); deleting the eviction lock lets the board come back before it leaves the dirty indexes (`EvictionDropsItsOwnLock`), and a write during the eviction then stays marked but unindexed (`EvictionOrphansMarkersIff`); and the epoch starts again, so the clear of a flush from before it may be accepted (`StaleClearAfterEvictionIff`).
- The increment of a write that lands after an eviction makes the board look loaded without its rows (`OneLandingIff`, `NeverReloadedIff`).
- Flushes are lined up per process only; two of them may write an old row over a flushed edit (`StaleCommitLosesAnEdit`), exactly when a stale commit writes something else than current content where the table must agree (`TwoFlushersAreRightIff`, `CommitIsHarmlessIff`, `SnapshotIsHarmlessIff`); `ScheduleIsSafe` names the schedules that rule this out.
- A create or delete on its own loads no context, so managed month-range metas do not stop it (`CreateOrDeleteAloneIsNeverBlocked`); a batch gives the full board's verdict exactly when it knows a reason, if there is one (`BatchMayMissALock`, `BatchVerdictIsFullIff`), and always when it is self-contained (`SelfContainedBatchIsFull`).
- A PATCH that creates a managed meta and an element inside it loses the element (`ChildOfNewMetaIsLost`, `TranslationPreservesMeaning`).
- One blocked move among the queued ones makes the whole flush move nothing (`CoalescingIsExact`), and a flush that fails has lost its moves (`MovesAreConserved`).
- After a reload the sequence restarts, so a client from before it may be told that a changed board is unchanged (`CatchUpAcrossReloadIff`).
- Reuse detection and logout do not reach a rotation that is already claimed (`FamilyRevokeIsFinalIff`, `LogoutIsFinalIff`).
- Local lock maps never drop their entry (`EntryIsNeverDropped`).

## Assumptions

- The pipeline of a write is one step. The increment of the sequence before it is a separate step.
- In `FlushProtocol.dfy` one flush of a board is in flight at a time, as the persist chain of one process arranges; `TwoFlushers.dfy` drops this. No eviction resets the epoch during a flush; `StaleClearAfterEvictionIff` says what happens if one does.
- In `LoadEvict.dfy` writers use loaded boards only, and a scan is one step; `EvictionOrphansMarkersIff` lets writes land anywhere.
- An element id belongs to one board, and row ids are unique.
- Mutation ids, lock tokens and duplicated ids are random: fresh and distinct.
- The seen window is open: no mutation id expires and the board is not evicted during a run of `AtMostOnce.dfy`.
- In `SoloMode.dfy` the board is stored in Postgres.
- Stored elements carry a string `id` and a string `kind`; a missing key and `undefined` are the same.
- Reals are exact, and comparing ids as the locale does is a strict total order.

## Model

| member | source | states |
|---|---|---|
| `FlushProtocol.UnmarkedIdsAreDurable` | src/modules/collaboration/board-state/persistence-domain.ts:236-392 | in every state reachable by any interleaving of writers with one flusher, crashes and retries included, an id that is neither dirty nor deleted has the same content in Postgres as in Redis |
| `FlushProtocol.AcceptedClearIsFullSnapshot` | src/modules/collaboration/board-state/persistence-domain.ts:221-392 | whenever the compare-and-clear is accepted, in either mode, the table holds what delete-all/insert-all of Redis would leave and the board is out of both indexes; in incremental mode nothing is marked any more |
| `FlushProtocol.ClearAcceptedIffNoWrite` | src/modules/collaboration/board-state/persistence-domain.ts:354-392 | the clear is accepted if and only if no write landed after the epoch was read |
| `FlushProtocol.MarkedBoardsAreIndexed` | src/modules/collaboration/board-state/state-domain.ts:161-174 | a marked board is in both dirty indexes, and its score and dirty_since are the time of the earliest write since the last accepted clear |
| `FlushProtocol.MarkersOnlyGrow` | src/modules/collaboration/board-state/persistence-domain.ts:329-392 | as long as no clear is accepted, however many flushes crash, fail or have their clear rejected, no marker is removed and no write of the dirty window forgotten |
| `FlushProtocol.WriteKeepsInv` | src/modules/collaboration/board-state/state-domain.ts:143-175 | the pipeline of a write marks every id it changes and keeps the agreement of all others |
| `FlushProtocol.CommitKeepsInv` | src/modules/collaboration/board-state/persistence-domain.ts:274-297 | the transaction touches marked ids only; with a snapshot that is still current it makes every id agree |
| `FlushProtocol.QuietFlush` | src/modules/collaboration/board-state/persistence-domain.ts:305-392 | the steps of a flush in a row are one atomic flush, in both modes and with or without markers; it leaves Postgres equal to Redis, the incremental markers gone and the elements untouched |
| `FlushProtocol.FlushedSequenceIsDurableIff` | src/modules/collaboration/board-state/persistence-domain.ts:331-392 | at an accepted clear the table holds exactly the changes that have landed; every number up to the recorded sequence has landed if and only if none of them is still pending |
| `FlushProtocol.LockedFlushIsDurable` | src/modules/collaboration/board-state/persistence-domain.ts:331-392 | a flush that starts while no number is pending, as under the board lock, records a sequence up to which every change is in the table |
| `FlushProtocol.FlushedSequenceMayRunAhead` | src/modules/collaboration/board-state/persistence-domain.ts:331-392 | a run in which the recorded sequence counts a change that is not in Postgres: one that had its number but not its pipeline |
| `FlushProtocol.EmptyIdIsNeverFlushed` | src/modules/collaboration/board-state/persistence-domain.ts:259-264 | the one id the incremental flush loses: an element with an empty id is never written, yet its marker is cleared |
| `TwoFlushers.TwoFlushersAreSafe` | src/modules/collaboration/board-state/persistence-domain.ts:60-79 | two flushers of two processes may overlap in any way, in either mode: as long as every stale commit is harmless, unmarked ids agree, a full-snapshot board outside the dirty index agrees, and dirty boards are indexed |
| `TwoFlushers.TwoFlushersAreRightIff` | src/modules/collaboration/board-state/persistence-domain.ts:236-392 | at every moment of a run of two flushers the table has what it must, now and after any clear that would be accepted, if and only if every stale commit of the run is harmless |
| `TwoFlushers.ScheduleIsSafe` | src/modules/collaboration/board-state/persistence-domain.ts:60-79 | a condition on the schedule alone: two flushers are safe if no commit with an old epoch comes after an accepted clear of the other since its reads, or between the commit of the other and its clear that would still be accepted |
| `TwoFlushers.CommitIsHarmlessIff` | src/modules/collaboration/board-state/persistence-domain.ts:274-297 | a row write keeps the table in agreement where it must if and only if what it holds of each id it writes there is current |
| `TwoFlushers.SnapshotIsHarmlessIff` | src/modules/collaboration/board-state/persistence-domain.ts:221-234 | a full snapshot leaves the whole table in agreement if and only if what it read is the content of Redis now |
| `TwoFlushers.StaleCommitLosesAnEdit` | src/modules/collaboration/board-state/persistence-domain.ts:236-303 | a run of two flushers in which an edit that was flushed and cleared is overwritten in Postgres for good |
| `Elements.DecodeEncode` | src/modules/collaboration/board-state/load-domain.ts:18-26 | decoding an encoded element restores it, with the row's timestamp |
| `Elements.EncodeDecode` | src/modules/collaboration/board-state/persistence-domain.ts:117-126 | encoding a decoded row restores it if and only if the stored data holds no id, kind or updatedAt |
| `Elements.RowContentIsContent` | src/modules/collaboration/board-state/persistence-domain.ts:117-126 | two elements with one id give rows with the same content if and only if they agree up to the timestamp |
| `BoardService.CollectRowChanges` | src/modules/collaboration/board-state/persistence-domain.ts:256-272 | the loop turns each dirty id into a row, or into a delete when it has no element, and passes over an empty id |
| `BoardService.PersistBoardIncremental` | src/modules/collaboration/board-state/persistence-domain.ts:236-303 | the table after an uninterrupted incremental flush is the one the flush protocol reaches |
| `BoardService.BoardStateService.PersistBoard` | src/modules/collaboration/board-state/persistence-domain.ts:305-392 | a board found gone from Postgres, at the first look or by a foreign-key or UUID error of the transaction, is evicted; one that is not loaded only leaves the indexes; any other is flushed as the uninterrupted steps of the protocol do |
| `BoardService.BoardStateService.FlushBoard` | src/modules/collaboration/board-state/persistence-domain.ts:499-534 | an eviction that does not find its lock taken, and finds the board idle if that is asked for, scans, deletes and un-indexes: no key of the board is left and no other board is changed; otherwise it answers false and leaves every key |
| `BoardService.BoardStateService.TryMarkSeen` | src/modules/collaboration/board-state/state-domain.ts:99-103 | exactly the first caller claims a mutation id |
| `BoardService.BoardStateService.ApplyChangeSet` | src/modules/collaboration/board-state/state-domain.ts:110-186 | cascade, normalize, number and write: the method reaches the state of the change-set specification and returns its change, or nothing and changes nothing |
| `BoardState.ApplyChangeSetMeaning` | src/modules/collaboration/board-state/state-domain.ts:110-186 | the last upsert of each id replaces the old element, then the cascade of the requested ids is gone; nothing happens if and only if nothing was asked; sequence and epoch go up by one |
| `BoardState.ChangeMeaning` | src/modules/collaboration/board-state/state-domain.ts:117-141 | a deleted id is never upserted by the same change, and the change does to the hash what was asked |
| `BoardState.NormalizedIsLastWins` | src/modules/collaboration/board-state/state-utils.ts:3-11 | normalizing keeps the last upsert of each id and each id once |
| `BoardState.NormalizeUpserts` | src/modules/collaboration/board-state/state-utils.ts:3-11 | the Map loop computes the normalized upserts |
| `BoardState.PlanChange` | src/modules/collaboration/board-state/state-domain.ts:118-141 | cascade first, then drop the upserts that are deleted |
| `BoardState.ExecPipeline` | src/modules/collaboration/board-state/state-domain.ts:143-175 | the pipeline commands in their order reach the state of one atomic write |
| `Cascade.ClosureIsLeast` | src/modules/collaboration/board-state/state-utils.ts:38-51 | the cascade is the least set that holds the requested ids and is closed under children, on every graph, cycles included |
| `Cascade.ClosureMonotone` | src/modules/collaboration/board-state/state-utils.ts:13-54 | more requested ids or more elements never delete less |
| `Cascade.ClosureIdempotent` | src/modules/collaboration/board-state/state-utils.ts:13-54 | asking for a whole cascade adds nothing |
| `Cascade.SurvivorsDoNotDangle` | src/modules/collaboration/board-state/state-domain.ts:118-128 | no surviving element points into what was deleted |
| `Cascade.CollectCascadeDeleteIds` | src/modules/collaboration/board-state/state-utils.ts:13-54 | the worklist ends and returns exactly the cascade, without duplicates |
| `Cascade.IndexChildren` | src/modules/collaboration/board-state/state-utils.ts:19-36 | the two child maps file every element under the containers it names, and nothing else |
| `ChangeLog.CompleteIffKept` | src/modules/collaboration/board-state/state-domain.ts:188-212 | a catch-up is complete if and only if every later change survived the trim to 2000 entries, and then returns exactly those |
| `ChangeLog.CatchUpReachesCurrent` | src/modules/collaboration/board-state/state-domain.ts:188-212 | replaying a complete answer on the board the client knows gives the current board |
| `ChangeLog.CatchUpAcrossReloadIff` | src/modules/collaboration/board-state/state-domain.ts:188-212 | a client that holds the evicted board is served right by every complete answer after the reload if and only if it is at sequence 0 |
| `ChangeLog.RunFacts` | src/modules/collaboration/board-state/state-domain.ts:143-159 | over every run of logged changes the log is the end of the history, the sequence its length and the board its replay |
| `LockEnforcement.VerdictNeedsOnly` | src/modules/collaboration/mutations/lock-enforcement.ts:139-198 | the lock verdict depends only on the touched elements, their parents and the referenced metas |
| `LockEnforcement.FewerElementsNeverBlock` | src/modules/collaboration/mutations/lock-enforcement.ts:139-198 | a context with fewer elements never blocks more |
| `LockEnforcement.BlockedIffReason` | src/modules/collaboration/mutations/lock-enforcement.ts:139-198 | an operation is blocked if and only if there is a reason: one of its elements and what blocks it |
| `LockEnforcement.ValidateReconcileMonthRange` | src/modules/collaboration/mutations/lock-enforcement.ts:85-129 | the validation accepts exactly the self-consistent reconciles: never hijacking a plain meta, one managed meta and elements inside it, deletes distinct, inside it and disjoint from the upserts |
| `LockEnforcement.CheckUpserts` | src/modules/collaboration/mutations/lock-enforcement.ts:93-113 | the first loop accepts exactly distinct upserts that fit the meta and include it |
| `LockEnforcement.CheckDeletes` | src/modules/collaboration/mutations/lock-enforcement.ts:115-126 | the second loop accepts exactly distinct deletes inside the meta that are not upserted |
| `LockEnforcement.ConsistencyNeedsOnlyTouched` | src/modules/collaboration/mutations/lock-enforcement.ts:85-129 | the validation reads touched elements only |
| `Processor.CachedStepIsFullStep` | src/modules/collaboration/mutations/processor.ts:245-332 | one mutation on a cache that is right on the touched ids has the outcome of the full board under the same verdict, and the refreshed cache stays right |
| `Processor.ChangeKeepsCache` | src/modules/collaboration/mutations/processor.ts:233-243 | a change, cascaded deletes included, keeps cache and board equal on the touched ids |
| `Processor.ChangeSetNeedsOnlyTouched` | src/modules/collaboration/mutations/processor.ts:68-134 | the change set and the reconcile validation need the touched elements only |
| `Processor.TargetedVerdictIsFull` | src/modules/collaboration/mutations/processor.ts:136-231 | for a single operation other than create and delete, the targeted reads give the verdict and the validation of the full board |
| `Processor.CreateOrDeleteAloneIsNeverBlocked` | src/modules/collaboration/mutations/processor.ts:185-189 | a lone create or delete loads nothing and is never blocked; that is the full verdict if and only if no managed meta of the board holds its elements |
| `Processor.UnblockedDeleteExample` | src/modules/collaboration/mutations/processor.ts:185-189 | a concrete delete of a managed month that the full board blocks and the lone mutation gets through |
| `Batch.CachedIsOneByOne` | src/modules/collaboration/mutations/processor.ts:358-403 | grouping by board and working from the cache leaves each board where one-at-a-time processing in input order leaves it |
| `Batch.ResultsAreOneByOne` | src/modules/collaboration/mutations/processor.ts:358-403 | each answer of the batch is the answer of the one-at-a-time run at its index |
| `Batch.CacheStaysOk` | src/modules/collaboration/mutations/processor.ts:233-243 | the loop invariant: at every point of a batch the cache equals the board on every touched id |
| `Batch.CacheIsWhatIsKnown` | src/modules/collaboration/mutations/processor.ts:185-243 | the cache is exactly the part of the board that the batch loaded or has written since |
| `Batch.BatchVerdictIsExact` | src/modules/collaboration/mutations/processor.ts:268-283 | the verdict on every mutation of a batch is that of the known part of the board |
| `BatchVerdicts.BatchVerdictIsFullIff` | src/modules/collaboration/mutations/processor.ts:268-283 | a batch gives a mutation the full board's verdict if and only if nothing blocks it there, or some reason that does, the element and its blocker, is known to the batch |
| `BatchVerdicts.SelfContainedBatchIsFull` | src/modules/collaboration/mutations/processor.ts:185-231 | a batch whose loads cover what it deletes and every container that its payloads or the elements it touches name gets the full board's verdict throughout |
| `Batch.BatchVerdictIsSound` | src/modules/collaboration/mutations/processor.ts:268-283 | a batch never blocks what the full board would let through |
| `Batch.SingleVerdictIsFull` | src/modules/collaboration/mutations/processor.ts:268-283 | a batch of one mutation that touches elements gets the full board's verdict |
| `Batch.BatchMayMissALock` | src/modules/collaboration/mutations/processor.ts:211-231 | on any board, putting an element into a locked container and moving it, in one batch, is let through although the full board blocks the move |
| `MutationProcessor.CollectTouchedElementIds` | src/modules/collaboration/mutations/processor.ts:136-160 | the loop collects the touched ids of all operations |
| `MutationProcessor.CollectReferencedMetaIds` | src/modules/collaboration/mutations/processor.ts:164-183 | the loop collects the metas the payloads refer to |
| `MutationProcessor.CreateCachedBoardContext` | src/modules/collaboration/mutations/processor.ts:185-231 | the two reads load the touched elements, their parents and the referenced metas, and nothing when nothing is touched |
| `MutationProcessor.ApplyPersistedChangeToContext` | src/modules/collaboration/mutations/processor.ts:233-243 | the cache takes over the upserts and the deletes of an applied change |
| `MutationProcessor.ProcessMutationWithContext` | src/modules/collaboration/mutations/processor.ts:245-332 | broadcast-only, already applied, blocked, rejected, empty and applied: result and keys in every branch, other boards untouched |
| `MutationProcessor.LoneMutationIsFull` | src/modules/collaboration/mutations/processor.ts:334-339 | a lone mutation has the outcome of the full board, except that creates and deletes are never blocked |
| `MutationProcessor.ProcessMutation` | src/modules/collaboration/mutations/processor.ts:334-356 | a lone mutation is run in the mode its probe finds, gives the full board's outcome, re-arms the presence, then persists a solo board that changed, whose presence goes with its keys if the persist evicts it; no other board is touched |
| `MutationProcessor.GroupByBoard` | src/modules/collaboration/mutations/processor.ts:361-371 | the grouping lists, for each board, the indices of its mutations in input order |
| `MutationProcessor.RunBoard` | src/modules/collaboration/mutations/processor.ts:374-390 | the loop over one board reaches the cached run, answers each of its indices and leaves other boards alone |
| `MutationProcessor.FinishBoard` | src/modules/collaboration/mutations/processor.ts:373-393 | one board of a batch ends where the one-at-a-time run has it, persisted if it is solo and changed |
| `MutationProcessor.WorkOnBoard` | src/modules/collaboration/mutations/processor.ts:373-402 | one board of a batch is run in the mode its probe finds; its presence is re-armed, or gone if the persist evicted the board, with no other board or presence changed |
| `MutationProcessor.ProcessBatch` | src/modules/collaboration/mutations/processor.ts:358-412 | every answer and every board is that of one-at-a-time processing in input order on the full boards under the same verdicts and the probed modes; changed solo boards are then persisted, and the presence of each board of the batch is re-armed, or gone with a board that the persist evicts |
| `AtMostOnce.AppliedAtMostOnce` | src/modules/collaboration/board-state/state-domain.ts:99-103 | over any run with any resubmissions a mutation id yields at most one applied change, and none if it was seen before |
| `AtMostOnce.BatchMarksAll` | src/modules/collaboration/mutations/processor.ts:260-266 | a processed batch leaves every non-transient id of it marked as seen |
| `AtMostOnce.ReplayedBatchChangesNothing` | src/modules/collaboration/mutations/processor.ts:245-332 | replaying a whole batch that evicted no board leaves every key as it was: elements, sequence, epoch, markers and log |
| `PatchTranslation.CollectCascadeDeleteIds` | src/modules/boards/utils.ts:5-43 | the second worklist returns the same cascade as the first, without duplicates |
| `PatchTranslation.CollectSortedDeleteIds` | src/modules/boards/utils.ts:5-46 | the ids come back sorted |
| `PatchTranslation.InsertSorted` | src/modules/boards/utils.ts:45-45 | one step of the sort |
| `PatchTranslation.AtMostIsTotalOrder` | src/modules/boards/utils.ts:45-45 | the order of the sort is total |
| `PatchTranslation.BuildElementMutationBatch` | src/modules/boards/utils.ts:48-91 | the batch is one delete of the whole cascade, if any, then one create for each upsert that is not deleted |
| `PatchTranslation.KeptLastWins` | src/modules/boards/utils.ts:72-76 | per id, the creates end with the last upsert that is not deleted |
| `PatchTranslation.BatchIsOneChangeSet` | src/modules/boards/utils.ts:48-91 | for every request, the batch run in order leaves the content of one change set with the admitted upserts and all the deletes |
| `PatchTranslation.TranslationPreservesMeaning` | src/modules/boards/utils.ts:48-91 | if no kept upsert names an earlier managed month-range meta of the request, which a caller can check, the batch means the change set of the whole request; every kept upsert is admitted if and only if that holds; otherwise the two agree if and only if no loss shows |
| `PatchTranslation.ChildOfNewMetaIsLost` | src/modules/boards/utils.ts:72-88 | a request that creates a managed meta and an element inside it loses the element, which one change set would have created |
| `Duplication.RemapKeepsShape` | src/modules/boards/board.service.utils.ts:40-65 | remapping keeps keys, array lengths and all leaves other than strings, at any depth |
| `Duplication.RemapRoundTrip` | src/modules/boards/board.service.utils.ts:40-65 | with fresh ids, remapping back restores the data at any depth |
| `Duplication.CreateElementIdMap` | src/modules/boards/board.service.utils.ts:67-75 | the id map covers the board and is one-to-one |
| `Duplication.BuildDuplicatedElements` | src/modules/boards/board.service.utils.ts:77-91 | the copy is the renamed rows under one such map |
| `Duplication.RenamedElement` | src/modules/boards/board.service.utils.ts:58-61 | a copied element has the renamed id and the renamed parents |
| `Duplication.DuplicateKeepsCascade` | src/modules/boards/board.service.utils.ts:77-91 | deleting renamed ids on the copy deletes exactly the renaming of what the original would delete |
| `Duplication.DuplicateRoundTrip` | src/modules/boards/board.service.utils.ts:77-91 | duplicating the copy back through the inverse map restores every row |
| `LoadEvict.OneInstallPerEviction` | src/modules/collaboration/board-state/load-domain.ts:99-152 | however many loaders and evictions come, crash and interleave, as long as no loader inside loses the load lock: at most one is inside, each install is of a board that an eviction had unloaded, and a board nobody used since a quiet delete is the decoded table at sequence 0 |
| `LoadEvict.LockLossIsSafeIff` | src/modules/collaboration/board-state/load-domain.ts:71-97 | an expiry of the load lock, or an eviction whose scan found it, keeps loaders exclusive if and only if no loader is inside |
| `LoadEvict.EvictionOrphansMarkersIff` | src/modules/collaboration/board-state/persistence-domain.ts:511-529 | an eviction leaves a marked board outside the dirty indexes if and only if a write lands after its delete, or one before it creates a marker set the scan had not found; for a clean board, if and only if any write lands during it |
| `LoadEvict.StaleClearAfterEvictionIff` | src/modules/collaboration/board-state/persistence-domain.ts:331-392 | the clear of a flush that read epoch e before an eviction is accepted after it if and only if exactly e writes landed since the delete, and then forgets them all |
| `LoadEvict.OneLandingIff` | src/modules/collaboration/board-state/load-domain.ts:110-113 | what lands on an evicted board leaves it loaded with other elements than the decoded table if and only if it is the increment of a write and the table is not empty |
| `LoadEvict.NeverReloadedIff` | src/modules/collaboration/board-state/load-domain.ts:110-113 | an evicted board is loaded without its rows ever having been installed if and only if the increment of a write is the first to land that loads it |
| `LoadEvict.EvictionDropsItsOwnLock` | src/modules/collaboration/board-state/persistence-domain.ts:499-523 | the delete of an eviction takes its own lock along, before the indexes are cleaned |
| `Eviction.QuietEvictionLeavesNothing` | src/modules/collaboration/board-state/persistence-domain.ts:499-534 | lock, scan, delete and un-index in a row leave no key at all |
| `Eviction.ScanKeys` | src/modules/collaboration/board-state/persistence-domain.ts:511-519 | the scan finds every key of the board, its locks and mutation ids included, other than its entries in the two indexes |
| `LoadEvict.InstallRows` | src/modules/collaboration/board-state/load-domain.ts:136-139 | the HSETs of a load store each row's element under its id |
| `LoadEvict.DecodedIffAgree` | src/modules/collaboration/board-state/load-domain.ts:127-139 | what a load decodes has the content of the board if and only if Postgres agreed with Redis |
| `LoadEvict.EvictReloadRoundTrip` | src/modules/collaboration/board-state/persistence-domain.ts:499-534 | in either mode: evicting any reachable board and reloading it, step by step and with competing loaders and evictions, restores the elements up to timestamps if and only if Postgres agreed with Redis, so always when nothing was marked or, in full-snapshot mode, the board was not dirty; the sequence restarts at 0 |
| `LoadEvict.QuietEvictAndLoad` | src/modules/collaboration/board-state/load-domain.ts:99-152 | one eviction and one load in a row are such a run, and leave the board settled and loaded |
| `MutationLock.AtMostOneInside` | src/modules/collaboration/board-state/mutation-lock-domain.ts:40-115 | over every timed run in which holders renew within each time-to-live and no eviction finds a task inside, at most one task of all processes is inside, and it holds the live lease |
| `MutationLock.EvictionIsSafeIffNobodyInside` | src/modules/collaboration/board-state/persistence-domain.ts:511-523 | an eviction, whose scan matches the mutation lock too, keeps the lock exclusive if and only if nobody is inside |
| `MutationLock.WaitIsSafeIffTimely` | src/modules/collaboration/board-state/mutation-lock-domain.ts:69-83 | a wait keeps the next attempt out if and only if it ends before the lease the holder last renewed |
| `MutationLock.LeaseIsSafeIff` | src/modules/collaboration/board-state/mutation-lock-domain.ts:69-98 | at any timing, a live lease is kept until it expires if and only if its owner does not release it and no eviction deletes it; no other token ends or shortens it, and while it is kept nobody new gets in |
| `MutationLock.AcquireMutationLock` | src/modules/collaboration/board-state/mutation-lock-domain.ts:40-67 | each attempt is the step of the lock machine on what it finds at its own moment; acquiring stops after at most 81 attempts, and fails only after every attempt found a live lease and the look at the clock after it two seconds passed |
| `LocalLock.FirstComeFirstServed` | src/modules/collaboration/board-state/mutation-lock-domain.ts:20-38 | the callers of one process run one at a time in arrival order, and the next can enter exactly when all before it have left |
| `LocalLock.EntryIsNeverDropped` | src/modules/collaboration/board-state/mutation-lock-domain.ts:27-36 | the map entry is never removed: it names every caller there ever was |
| `Presence.BoardPresence.PruneStaleClients` | src/modules/collaboration/board-state/presence-domain.ts:76-104 | the loop removes exactly the clients without a live lease |
| `Presence.BoardPresence.TouchViewerSession` | src/modules/collaboration/board-state/presence-domain.ts:112-127 | touching a session drops the expired ones and arms collab mode when two are counted |
| `Presence.BoardPresence.GetSyncWriteMode` | src/modules/collaboration/board-state/presence-domain.ts:153-175 | the probe answers collab under a live marker or two participants, and arms the marker in the second case |
| `Presence.BoardPresence.RearmCollabModeIfActive` | src/modules/collaboration/board-state/presence-domain.ts:32-49 | the marker is extended only when it is live or two are counted |
| `SoloMode.AloneStaysSolo` | src/modules/collaboration/board-state/presence-domain.ts:14-64 | while neither set reaches two members the collab marker is never set, and a synced board stays synced |
| `SoloMode.EveryBatchIsDurable` | src/modules/collaboration/mutations/processor.ts:376-401 | every completed batch of such a run that applied a change leaves Postgres equal to Redis and nothing marked |
| `SoloMode.SoloBatch` | src/modules/collaboration/mutations/processor.ts:376-393 | one solo batch keeps the flush invariant, and syncs the board if it changed anything |
| `SoloMode.CollabLasts` | src/modules/collaboration/board-state/presence-domain.ts:19-23 | once a join, a touch, a probe or a re-arm has counted two, every probe of the next cooldown says collab, even if everyone leaves |
| `SoloMode.LoadedBoardStartsSolo` | src/modules/collaboration/board-state/load-domain.ts:134-144 | a freshly loaded board without a marker is where such runs start: synced and in solo mode |
| `MoveQueue.MoveRoom.QueueMoves` | src/modules/realtime/socketio/tick-persistence.ts:98-115 | queued moves are merged per element and arm the timers; an empty list does nothing |
| `MoveQueue.MoveRoom.ApplyRemoteUpdate` | src/modules/realtime/socketio/crdt-room.ts:116-147 | an update merges its moves and always schedules a flush |
| `MoveQueue.MoveRoom.Flush` | src/modules/realtime/socketio/tick-persistence.ts:39-54 | taking what is pending empties the room and disarms both timers; nothing happens when nothing is pending |
| `MoveFlush.FlushMoves` | src/modules/realtime/socketio/tick-persistence.ts:39-76 | a flush takes all pending moves, and loses them if the board cannot be loaded; else it loads the board and submits them as one mutation, whose answer, keys and table are those of the full board, persisted if the board is solo |
| `MoveFlush.BatchOfOne` | src/modules/collaboration/mutations/processor.ts:358-403 | a batch of one mutation that touches elements has the outcome of the full board |
| `MoveQueue.MovesAreConserved` | src/modules/realtime/socketio/tick-persistence.ts:39-115 | every move that arrived is pending, submitted or lost, exactly once; none is lost if and only if no flush failed and no clear came while moves were pending |
| `MoveQueue.PendingIsBounded` | src/modules/realtime/socketio/tick-persistence.ts:77-115 | in every reachable timed state pending moves are the last of each queued element and imply a maximum-wait timer due within 1500 ms (1600 ms in CRDT rooms) of the first of them |
| `MoveCoalescing.InOrderMeaning` | src/modules/collaboration/mutations/processor.ts:90-103 | the queued moves one by one, in arrival order, put each element at its last unblocked position |
| `MoveCoalescing.FlushMeaning` | src/modules/realtime/socketio/tick-persistence.ts:46-67 | one flush puts every element at its last queued position, or moves nothing if one queued move is blocked |
| `MoveCoalescing.FlushVerdict` | src/modules/collaboration/mutations/lock-enforcement.ts:141-149 | the coalesced move is blocked if and only if one of the queued moves is |
| `MoveCoalescing.MovesKeepVerdicts` | src/modules/collaboration/mutations/lock-enforcement.ts:141-149 | moving elements never changes which moves are blocked |
| `MoveCoalescing.CoalescingIsExact` | src/modules/realtime/socketio/tick-persistence.ts:39-67 | one flush has the effect of all queued moves in arrival order, up to timestamps, if and only if none is blocked or the unblocked ones move nothing |
| `RefreshTokens.TokenStore.Refresh` | src/modules/auth/routes/session.routes.ts:58-127 | an unknown or expired token is refused, a usable one is exchanged for a new one of its family, a used one revokes its whole family |
| `RefreshTokens.TokenStore.Logout` | src/modules/auth/routes/session.routes.ts:183-193 | logging out revokes the presented token and keeps its row |
| `RefreshTokens.AtMostOnePlace` | src/modules/auth/routes/session.routes.ts:58-116 | over all interleavings, live tokens and claimed rotations of a family are together at most one |
| `RefreshTokens.ExchangedOnce` | src/modules/auth/routes/session.routes.ts:76-84 | no token is exchanged twice |
| `RefreshTokens.FamiliesAreIsolated` | src/modules/auth/routes/session.routes.ts:84-102 | whatever happens to other families, reuse detection included, leaves every token of a family as it is |
| `RefreshTokens.FamilyRevokeIsFinalIff` | src/modules/auth/routes/session.routes.ts:84-116 | reuse detection kills the family for good if and only if no rotation of it is in flight |
| `RefreshTokens.LogoutIsFinalIff` | src/modules/auth/routes/session.routes.ts:183-193 | logging out ends the family for good if and only if it has no other live token and no rotation in flight |
| `RefreshTokens.LogoutIsFinal` | src/modules/auth/routes/session.routes.ts:183-193 | logging out with the live token ends the session for good |
| `PreviewLayout.CalcColumnSections` | src/modules/previews/board-preview.service.ts:104-147 | the accumulating loops compute the section rectangles of the edge specification |
| `PreviewLayout.CellStarts` | src/modules/previews/board-preview.service.ts:116-129 | each start is the base plus the shares of all cells before it |
| `PreviewLayout.SectionsLieInside` | src/modules/previews/board-preview.service.ts:131-146 | short weight lists included, a section lies in the body of its grid along each axis whose weights cover the cells, save that a thinner one is drawn one unit wide |
| `PreviewLayout.FitsIff` | src/modules/previews/board-preview.service.ts:116-129 | the cells fit, missing weights counting as 1, if and only if at most one weight is missing, or two where all given ones are zero |
| `PreviewLayout.SectionLeavesGrid` | src/modules/previews/board-preview.service.ts:131-146 | a section in the last column starts inside the grid if and only if the columns fit |
| `PreviewLayout.SectionsDoNotOverlap` | src/modules/previews/board-preview.service.ts:131-146 | a section on earlier columns ends before one on later columns starts, and the same for rows, whatever the weights |
| `PreviewLayout.FitIsInside` | src/modules/previews/board-preview.service.ts:343-359 | the fit puts every rectangle inside the 320 by 200 picture with one positive scale, the largest that fits the margined bounds |
| `PreviewModel.SortSorts` | src/modules/previews/board-preview.service.ts:100-102 | sorting by id orders the elements and keeps them |
| `PreviewModel.ModelIgnoresRowOrder` | src/modules/previews/board-preview.service.ts:282-328 | for distinct ids and a strict total order the model does not depend on the order of the rows |

## Left out

- Processor.LoadedContext: loads an empty element id like any other, while `getElementsByIds` passes over it (src/modules/collaboration/board-state/state-domain.ts:63); on a board that holds such an element the batch lemmas do not describe the code.
- FlushProtocol.UnmarkedIdsAreDurable: leaves out the empty id, for which it is false (`EmptyIdIsNeverFlushed`).
- LoadEvict.EvictReloadRoundTrip: leaves out the empty id for the same reason, and element timestamps, which become those of the rows.
- BoardService.BoardStateService.PersistBoard: is a flush that nothing interrupts; interleavings are in FlushProtocol. Other errors of the database end the flush, as a crash does there.
- MutationProcessor.ProcessMutation: runs under the mutation lock without modelling it; MutationLock has the lock.
- MutationProcessor.WorkOnBoard: runs under the mutation lock without modelling it; MutationLock has the lock.
- MutationProcessor.ProcessBatch: runs under the mutation lock without modelling it, and persists at once instead of under the persist chain; MutationLock and FlushProtocol have the interleavings.
- MoveQueue.MoveRoom.Flush: only takes the pending moves; MoveFlush.FlushMoves submits them, and MovesAreConserved accounts for those that are lost.
- MoveFlush.FlushMoves: fails only where the board is loaded; a batch that fails halfway is not modelled.
- PreviewModel.ModelIgnoresRowOrder: takes the drawing of single elements and of contained notes as arbitrary functions.
- RefreshTokens.TokenStore.Refresh: tokens are their hashes; cookies, origins and access tokens are left out.
- The retry loop over dirty boards, which calls the flush again after a failure, and the idleness test before an eviction.
- The order of deleted ids in a change and the precedence among validation messages: deletes are a set, errors are distinguished but only their absence is specified.
- Writes that bypass dirty tracking (single-element set and delete), which are not part of the flush protocol.
- TwoFlushers.ScheduleIsSafe: is sufficient, not necessary: a late commit may happen to carry current content.
- MutationLock.AcquireMutationLock: the leases that its attempts find are arbitrary; which tasks leave them is in the lock machine.
- Catch-up across solo and collab phases: solo changes are not logged, and only the first gap is looked at.
- AtMostOnce.ReplayedBatchChangesNothing: leaves out a batch that evicts one of its boards, since the mutation ids are deleted with it.
- Scans of an eviction that take several steps: a scan finds the keys of one moment.
- Events, metrics, logs, routing, schemas, permissions, billing, OAuth and Yjs merging; CRDT updates are arbitrary moves.
- The table layout of previews, the hash of a model and the SVG text.
