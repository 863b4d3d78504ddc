# GeoWorld: verified models

GeoWorld is a deterministic world server. Clients get its state as a stream of keyframes and deltas and acknowledge what
they have applied; commands that must not be lost go through a write-ahead log, with checkpoints of the whole world beside
it. This project models the parts of the server that everything else leans on, and proves what they promise:

- **the stream** (`Stream*`, `Frame*`, `Delta*`, `KeyframeTiming`, `Connection`, `Acknowledge`, `Replica`, `StateQueue`): the
  connection's views and queue of unacknowledged records, both ways of building a delta, when keyframes come and what is
  withheld or cut, the client's replica, and all of it over whole runs with any number of frames in flight;
- **the projection of the world** (`CellIndex`, `GlobalView`, `OnProjection`, `ProjectionEngine`, `ProjectedRuns`,
  `VisibleSet`, `ObservedRuns`, `SightRuns`, `TurnRuns`): what a tick projects again and what it may leave alone, the index
  of cells behind every visible set, and whole runs of world, engine and visible cache, which `StreamFeeds` joins to the
  runs of the stream;
- **the log** (`Wal*`, `SegmentNames`, `LeBytes`, `Recovery`, `Pruning`): the record format, the writer thread as a machine
  whose every file operation may fail and that may crash anywhere, the recovery scan, the recovery plan, and the removal of
  covered segments;
- **checkpoints** (`CheckpointPublish`, `Retention`, `RestoreOrder`, `WorldCheckpoint`, `WorldProvider`, `BagCodec`, `Parsing`);
- **commands** (`CommandBuffer`, `Replay`, `Ingress`, `LateCommands`, `WholeReports`, `LogReading`, `ReplayDriver`,
  `DurableCodec`, `DurableRecords`, `DurableAdmission`, `DurableFates`): the buffer, replay against the live run and the replay tool on the
  log's records, the durable records and the gateway's admission;
- **what they stand on** (`WorldModel`, `WorldEffects`, `WorldStorage`, `WorldRuns`, `ThreadPool`): what operations on the world
  do, copy-on-write storage, and the thread pool.

Code that changes state in place is modelled by classes and by methods with loops, each proved against a function or a
relation over values; protocols are state machines over those, and their theorems quantify over all runs. A run is a list
of states with `Step` between neighbours. Relations are often passed as function values (`Steps(hash)`, `Right(f, trim)`),
which keeps the proofs small. Integers are unbounded where the source's cannot wrap in practice and are reduced modulo 2^64
where they can (`Integers.U64`). The entity hash, the checksum, the projection policy, the systems of a simulation step and
the outcomes of file operations are parameters.

The facts every theorem takes from outside its model: distinct entity contents have distinct hashes where `Telling` says
so; a new segment's name is in the directory once the file has been synced; the log's LSNs stay below 2^64 - 1; one caller
at a time uses the thread pool; every connection is built once per tick.

## Model

| member | source | states |
|---|---|---|
| Acknowledge.AcknowledgeSnapshot | libs/projection/src/engine.cpp:366-410 | the answer is told by floor, baseline and queue; an accepted acknowledgement replays exactly the records up to it into the acknowledged view and drops them; any other changes nothing |
| Connection.ConnectionProjection.RecordSent | libs/projection/src/connection.cpp:123-133 | the record is appended and the books (bytes, occurrences per WID) still balance |
| Connection.ConnectionProjection.EvictUnacked | libs/projection/src/connection.cpp:148-163 | exactly the oldest records go until both limits hold, and the answer tells whether one of them was unacknowledged |
| Connection.ConnectionProjection.DropRecordsThrough | libs/projection/src/connection.cpp:165-172 | exactly the records up to the snapshot go, books balanced |
| Connection.MapFidsAgree | libs/projection/src/engine.cpp:588-625 | which FIDs are handed out depends on the WIDs that need one, not on what else is scanned |
| Replica.ReplicaAccumulator.Apply | libs/protocol/src/replica.cpp:110-138 | a frame makes the replica what overriding it with the frame's operations gives, from nothing for a keyframe |
| StreamTypes.ApplyOpsIsOverride | libs/protocol/src/replica.cpp:128-138 | operations one by one equal the last operation of each WID all at once |
| FrameBuild.BuildFrame | libs/projection/src/engine.cpp:569-930 | the whole build: connection, throttled WIDs and frame are one of the outcomes of `FrameSpec.Built` (keyframe, delta by full or cached scan with cut updates, nothing) |
| FrameScan.CachedScanRefinesFullScan | libs/projection/src/engine.cpp:789-835 | scanning the candidates gives the operations, landing points, throttled WIDs and FIDs of the full scan exactly if nothing outside them disagrees with what was acknowledged |
| FrameSpec.InPlaceIsRebuild | libs/projection/src/engine.cpp:885-925 | converging the current view in place gives the rebuilt view exactly if the two agreed wherever neither the frame nor the stale WIDs look |
| StreamHistory.AckedViewIsClientHistory | libs/projection/src/engine.cpp:366-410 | in every run an accepted acknowledgement names a frame of this epoch, and if the count of frames up to it is trusted, the acknowledged view becomes the replica the client had right after that frame |
| StreamHistory.CalmRunsTrustEveryFrame | libs/projection/src/engine.cpp:604-661 | in every run without eviction and uncovered keyframes all counts are trusted |
| StreamHistory.KeyframeHeals | libs/projection/src/engine.cpp:613-661 | a keyframe's record replays to what the client gets exactly if the keyframe mentions every WID the replayed view had |
| StreamCoherence.AckKeepsSightIff | libs/projection/src/engine.cpp:385-410 | an acknowledgement keeps every disagreement among the candidates exactly if what it releases has settled |
| StreamCoherence.CachedBuildIsFullBuild | libs/projection/src/engine.cpp:789-835 | in every run a cached build of a coherent connection finds what the full scan finds |
| StreamViews.RunInPlace | libs/projection/src/engine.cpp:885-925 | in every run, unless a keyframe is pending, the current view is the acknowledged one outside unacknowledged and dirty WIDs |
| StreamViews.CurrentIsAckedOverlaid | libs/projection/src/engine.cpp:885-925 | in every run each frame leaves the current view equal to the acknowledged view overlaid by that frame's operations, cut updates fallen back |
| StreamViews.ViewPromiseIff | libs/projection/src/engine.cpp:604-930 | in every run, with room in the queue and the history reproduced, the current view after a frame is the replica of the client that applied all frames exactly if the frame is a keyframe or no operation in flight that changes what was acknowledged belongs to a WID this build passes over |
| StreamLimits.NewestStaysIff | libs/projection/src/connection.cpp:148-163 | the newest record survives eviction exactly if it fits both limits on its own |
| StreamLockstep.LockstepViewsAgree | libs/projection/src/engine.cpp:366-410 | in every lockstep run an accepted acknowledgement leaves acknowledged view, current view and client replica equal |
| StreamLockstep.LockstepCachedBuildIsFullBuild | libs/projection/src/engine.cpp:789-835 | in every lockstep run without cut updates every cached build is the full one |
| StreamFids.FidsAreUnambiguous | libs/projection/src/connection.cpp:32-60 | in every run acknowledged and in-flight FIDs are those of the table, and no two acknowledged WIDs share one |
| StreamFids.FreshFrameAcceptedIff | libs/projection/src/engine.cpp:590-602 | in every run the acknowledgement of a frame just sent is accepted exactly if the build did not open an epoch because FIDs ran out and the frame's record is within the configured limits on its own; after an exhaustion it is refused as another epoch's |
| KeyframeTiming.KeyframeIff | libs/projection/src/engine.cpp:540-606 | in every run a build sends a keyframe exactly if one was asked for since the last (by a new connection, a reconnection, a request or a record pushed out), the policy is another, FIDs run out, or the tick has come by which one is due |
| KeyframeTiming.NextKeyframe | libs/projection/src/engine.cpp:548-563 | with one build per tick, a keyframe that nothing calls for comes the interval after the last one, less the stagger offset if that one was called for: those that nothing calls for are the interval apart |
| KeyframeTiming.KeyframeInTime | libs/projection/src/engine.cpp:548-563 | by any build at or after the tick a keyframe is due, one was sent |
| KeyframeTiming.PolicyChangeSends | libs/projection/src/engine.cpp:578-579 | a build under another policy than the last keyframe's finds one sent in between or sends one |
| KeyframeTiming.AskedIsSent | libs/projection/src/engine.cpp:578-606 | after a reconnection or a request the next build sends a keyframe |
| KeyframeTiming.UnscheduledIsAsked | libs/projection/src/engine.cpp:555-563 | a connection for which no keyframe is scheduled has one asked for, so the stagger of first keyframes decides nothing |
| StreamSight.BuildShowsSight | libs/projection/src/engine.cpp:569-930 | in every run a build that withholds and cuts nothing, and scans everything or belongs to a coherent connection, leaves exactly the live entities in sight, each as it is: in the current view if it sends a frame, in the acknowledged one if not |
| StreamRates.WithheldIff | libs/projection/src/engine.cpp:758-777 | in every run an out-of-date entity in sight is withheld by a delta build that looks at it exactly if its class has a delay and the build comes too soon after the last frame, if that carried the entity, or after tick zero; else it is sent or cut by the quota |
| StreamRates.DelayIsForgotten | libs/projection/src/engine.cpp:758-777 | after a frame without the entity it is sent again at once, however recently it was sent before |
| StreamQuota.UpdatesWithinQuota | libs/projection/src/engine.cpp:842-868 | in every run a delta has no more updates than the quota, exactly as many if any is cut, and none cut comes ahead of one kept by priority and then FID |
| StreamQuota.CutAgain | libs/projection/src/engine.cpp:842-868 | an update with a full quota of others ahead of it is cut every time, however long it has waited |
| StreamNumbers.FramesAreNumbered | libs/projection/src/engine.cpp:604-661 | in every run epochs count reconnections and FID exhaustion from one, frames count from the start of the epoch, and each carries its tick's snapshot and, if a delta, the snapshot last acknowledged in the epoch |
| StreamNumbers.AcksAreAnswered | libs/projection/src/engine.cpp:366-392 | in every run the answer to an acknowledgement is told by where the epoch began, what was last acknowledged in it and what is in flight, and only an accepted one changes anything |
| StreamNumbers.EarlierEpochsAreRefused | libs/projection/src/engine.cpp:375-377 | in every run the acknowledgement of a frame sent before an epoch began is answered as another epoch's |
| StreamNumbers.FramesAreListed | libs/projection/src/engine.cpp:870-878 | in every run keyframes list entities by WID, deltas leaves by FID, enters by WID and updates by FID |
| StreamLimits.EvictionIsLeast | libs/projection/src/connection.cpp:148-163 | eviction takes the fewest of the oldest records that bring the rest within both limits |
| StreamExamples.CachedScanMayMissAnUpdate | libs/projection/src/engine.cpp:789-835 | a concrete run without eviction, cutting or uncovered keyframe in which the cached scan finds nothing where the full scan finds an update |
| StreamFailures.PromiseMayFail | libs/projection/src/engine.cpp:604-612 | a concrete run after which the client shows an entity the current view has lost |
| StreamFailures.ExhaustionKeyframeIsRefused | libs/projection/src/engine.cpp:590-602 | a concrete run whose exhaustion keyframe is answered as another epoch's |
| StateQueue.Queue.Push | libs/gateway/src/queues.cpp:7-34 | the queue is what superseding, appending and trimming give; the bytes are the sum of the frames and exceed the limit only for a single one; resync is set exactly if something was dropped |
| StateQueue.Queue.Pop | libs/gateway/src/queues.cpp:36-44 | the oldest frame, the rest, and the bytes still counted right |
| StateQueue.PushedIs | libs/gateway/src/queues.cpp:7-27 | a push leaves, in their order, nothing before a keyframe, and before a delta every frame but the deltas on its own baseline; the new frame comes last |
| StateQueue.TrimmedIsLongest | libs/gateway/src/queues.cpp:29-34 | what stays is the longest end of the queue within the limit, or the newest frame alone |
| StateQueue.CoalescingIff | libs/gateway/src/queues.cpp:7-27 | taking a superseded delta out leaves the client with the same replica exactly if each of its operations is overtaken by a later frame or has no effect |
| StateQueue.QueueKeepsMeaning | libs/gateway/src/queues.cpp:7-44 | in every run of pushes and pops without overflow in which each push covers what it supersedes, draining the queue ends in the replica of a client that got every frame |
| StateQueue.CoalescingMayLose | libs/gateway/src/queues.cpp:15-24 | two deltas on one baseline about different entities: the older one's update is never sent |
| CellIndex.DynamicCellIndex.Upsert | libs/spatial/src/cell_grid.cpp:87-109 | the entity is in the cell of its position and in no other; the migration told is the one made |
| CellIndex.DynamicCellIndex.Erase | libs/spatial/src/cell_grid.cpp:111-119 | the entity is gone from locations and cells |
| CellIndex.DynamicCellIndex.QueryCandidates | libs/spatial/src/cell_grid.cpp:129-159 | exactly the entities located in the cells between the corners, ascending |
| CellIndex.QueryCompleteIff | libs/spatial/src/cell_grid.cpp:29-55 | every entity inside the bounds is found exactly if the query's level is one of the grid's |
| CellIndex.CellHolds | libs/spatial/src/cell_grid.cpp:22-55 | a cell holds exactly the positions from its edges up to the next ones, which are twice as far apart from level to level |
| CellIndex.FoundIsNear | libs/spatial/src/cell_grid.cpp:129-159 | whatever a query finds is less than one cell away from its bounds |
| VisibleSet.VisibleCache.Resolve | libs/projection/src/engine.cpp:498-537 | the visible set, cached or not, is what a query gives now, less what the relevance filter keeps back; a hit comes exactly without a filter and with area and index as at the last fill; a filter leaves the cache alone |
| VisibleSet.AllInsideSeen | libs/projection/src/engine.cpp:498-537 | every live entity inside the area is in the visible set |
| VisibleSet.FilterTakenAway | libs/projection/src/engine.cpp:498-537 | asked without a filter, with one that keeps everything back, and without again: the last answer is a hit with the first, although the one between was empty |
| SightRuns.FollowerSees | libs/projection/src/engine.cpp:478-497 | who follows a live entity sees, as far as the filter lets it through, everything within the radius on each axis and nothing a cell or more beyond |
| SightRuns.AreaComesFirst | libs/projection/src/engine.cpp:478-497 | a fixed area comes before what is followed, and without either, or with nothing alive to follow, nothing is seen |
| OnProjection.FindDirty | libs/projection/src/engine.cpp:148-171 | walking pointers and stamps side by side finds exactly the objects that look different, whether each moved, and its cache entry |
| ProjectionEngine.Engine.Observe | libs/projection/src/engine.cpp:102-285 | one tick with the pointer and stamp caches in place: the view is what looking at every object gives, the news and the removals are exact, everything stays in its cell, and the index changes only with its revision |
| GlobalView.TickIsExactIff | libs/projection/src/engine.cpp:109-292 | the tick leaves the projection of the whole world exactly if unchanged stamps mean unchanged projections and nothing is gone without an erasure being told |
| GlobalView.DifferenceIsSeen | libs/projection/src/engine.cpp:148-205 | an object that differs from its stamp in revision, version, place or policy is projected as it is |
| GlobalView.ChangesAreExact | libs/projection/src/engine.cpp:210-262 | the changed list has exactly the WIDs whose projection is not the one held |
| ProjectedRuns.RunTraced | libs/world_model/src/world.cpp:86-161 | in every run of world operations other than update and restore, versions count an object's changes, revisions tell new objects, and the erase counter counts erasures |
| ProjectedRuns.TicksMirror | libs/projection/src/engine.cpp:102-292 | after any such run, and across a change of policy version, the next tick mirrors the whole world |
| ObservedRuns.ObserveRun | libs/projection/src/engine.cpp:102-285 | world operations of any number and then a tick, on the real storage, caches and index: an engine that had seen the world and mirrored it has seen it and mirrors it again |
| TurnRuns.RunTurns | libs/projection/src/engine.cpp:102-352 | any number of such turns, each followed by a look at what the connection subscribes to: every view mirrors the world of its turn, the news are the differences of neighbouring views, the visible set is what the area touches and the filter lets through, and after a cache hit the same entities are alive, and visible unless a filter was in force, as a turn before |
| TurnRuns.RunFromEmpty | libs/projection/src/engine.cpp:102-352 | the same from an empty world and a new engine, with nothing assumed of either |
| StreamFeeds.FedRunIsRunIff | libs/projection/src/engine.cpp:498-537 | builds fed by these turns make a run of the stream, so that what its theorems take for granted on a cache hit holds, exactly if every hit finds visible what the last build had; always if no filter is taken away |
| StreamFeeds.ReappearedIsMissed | libs/projection/src/engine.cpp:789-835 | an entity visible again that the client does not have and no candidate list names is missed by the cached scan |
| ProjectedRuns.RestoreHidesErasure | libs/projection/src/engine.cpp:267-291 | a restore to the erase counter last seen leaves vanished entities in the view |
| ProjectedRuns.UnmarkedUpdateIsMissed | libs/world_model/src/world.cpp:128-140 | an update whose mutation leaves version, revision and place alone is not seen |
| WalCodec.DecodeOfEncode | libs/persistence/src/wal_codec.cpp:33-102 | an encoded record is read back if its body is within the limit and is malformed otherwise |
| WalCodec.DecodeOfCut | libs/persistence/src/wal_codec.cpp:61-102 | a record cut anywhere is never read |
| WalCodec.EncodeOfDecode | libs/persistence/src/wal_codec.cpp:61-102 | whatever is read is exactly what encoding it gives |
| WalCodec.HeaderLsnIff | libs/persistence/src/wal_codec.cpp:104-120 | a buffer has a header LSN exactly if it starts with the header written for it |
| WalCodec.EncodeRecord | libs/persistence/src/wal_codec.cpp:33-51 | the buffer filled field by field is the specified encoding |
| WalCodec.WalFormatIsSound | libs/persistence/src/wal_codec.cpp:33-120 | the format reads back what it writes, whatever the checksum |
| SegmentNames.ParseFileName | libs/persistence/src/wal_codec.cpp:130-148 | the LSN in a name, modulo 2^64, or none |
| SegmentNames.ClassifiedText | libs/persistence/src/wal_reader.cpp:173-207 | every segment is recognised by its own name, and no temporary name is one |
| WalDirectory.NamesTellSegments | libs/persistence/src/wal_reader.cpp:173-219 | a directory listing segment names beside names that are none is read as those segments |
| WalScan.ScanSegment | libs/persistence/src/wal_reader.cpp:86-171 | the scan of one file, proved against its specification |
| WalScan.ScanTailOfCut | libs/persistence/src/wal_reader.cpp:133-171 | records cut at any byte read back as the whole records before the cut |
| WalDirectory.ScanWalDirectory | libs/persistence/src/wal_reader.cpp:173-240 | the scan of a directory in any listing order, proved against its specification |
| WalDirectory.ScanClosedEntries | libs/persistence/src/wal_reader.cpp:173-240 | intact closed segments read back record for record under either tail policy |
| WalDamage.ScanFileOfDamage | libs/persistence/src/wal_reader.cpp:86-171 | whatever bytes stand behind whole records in place of the next one, just the records in front of them are read; a record of another LSN is refused, and anything else cut away where that is allowed and refused where not |
| WalDamage.DamagedClosedIsRefused | libs/persistence/src/wal_reader.cpp:86-171 | damage in a closed segment is never skipped: whatever comes after it, the log is refused and left as it is |
| WalDamage.DamagedTailIsCutIff | libs/persistence/src/wal_reader.cpp:67-83 | damage at the end of the active segment is cut away exactly if cutting is allowed and it does not read as a record; nothing else goes |
| WalTickets.TicketsAnsweredInOrder | libs/persistence/src/wal_writer.cpp:195-286 | in every interleaving tickets are answered in order, each once, successes with consecutive LSNs up to the first refusal; when the thread has exited every ticket has its answer |
| WalTickets.AnswersAreFinal | libs/persistence/src/wal_writer.cpp:352-451 | answers never change, and a read-only writer accepts, writes and confirms nothing |
| WalSync.DurableAnswersAreSynced | libs/persistence/src/wal_writer.cpp:368-451 | in every run, oversize records included, a durable answer comes with nothing written so far left unsynced and for an LSN already given |
| WalSync.ClosedSegmentsAreSynced | libs/persistence/src/wal_writer.cpp:309-336 | in every run a segment is closed only with everything in it synced, at the end of the log |
| WalLimits.QueueWithinLimits | libs/persistence/src/wal_writer.cpp:186-275 | in every run the queue is counted right and within its limits, and so is every batch, but for a single record larger than a batch may be |
| WalLimits.SegmentsWithinLimits | libs/persistence/src/wal_writer.cpp:309-366 | in every run in which what the writer may take fits the reader's limit, every segment is within the size configured, but for a single larger record |
| WalLimits.ClosedOnlyIfNeeded | libs/persistence/src/wal_writer.cpp:309-366 | a segment is closed only if it holds a record and is too old or has no room for the next |
| WalStore.StoreReadsBack | libs/persistence/src/wal_reader.cpp:173-240 | whatever a crash left, the scan succeeds with a prefix of the log that includes all that is safe, and cuts the active segment to what it read |
| WalStore.CrashKeepsStore | libs/persistence/src/wal_writer.cpp:309-336 | a crash keeps the safe records where they are |
| WalDurability.DurableRecordsSurvive | libs/persistence/src/wal_writer.cpp:309-451 | in every run with any number of crashes in which what the writer may take fits the reader's limit, for every crash now: the scan returns a prefix of what was written, with every record ever reported durable under its LSN, and a restart goes on with the next LSN |
| WalOversize.DurableRecordIsLost | libs/persistence/src/wal_writer.cpp:195-199 | for every record that the writer takes and whose body is over the reader's limit: a run that reports it durable and from which recovery returns nothing |
| WalOversize.DurableSurvivesIff | libs/persistence/src/wal_writer.cpp:195-451 | whatever records callers may append: in every run and for every crash all that was reported durable is read back, if and only if each of these records that the writer may take fits the reader's limit with header and checksum |
| WalFloor.StartWriter | libs/persistence/src/wal_writer.cpp:136-163 | where the writer goes on after its scan, with and without a recovery floor, and when it refuses |
| WalFloor.AboveFloorIff | libs/persistence/src/wal_writer.cpp:144-163 | from a log the recovery plan accepts the writer goes on above the floor exactly unless all segments are blank and the first starts at or below it |
| WalFloor.BelowFloorIsSkipped | libs/persistence/src/recovery.cpp:219-223 | whatever is logged at or below the floor is replayed by no plan for that checkpoint |
| WalFloor.FloorIsUndercut | libs/persistence/src/wal_writer.cpp:144-163 | an empty active segment for LSN five under a checkpoint that includes ten: accepted, and the writer gives LSN five |
| Recovery.BuildPlan | libs/persistence/src/recovery.cpp:160-227 | the plan, proved against its specification |
| Recovery.PlanIsExact | libs/persistence/src/recovery.cpp:160-227 | of any directory, in any order: an accepted plan replays exactly the LSNs after the included one up to the last, without gap or repetition |
| WalDamage.LogPlanIff | libs/persistence/src/recovery.cpp:160-227 | a log that is legible up to what may be cut away is planned for exactly if it starts no later than right after what the checkpoint includes and, unless empty, does not end before that; then just the records after those are replayed |
| Pruning.PruneCovered | libs/persistence/src/checkpoint.cpp:59-112 | what is removed is what is covered and whose removal succeeds |
| Pruning.PruningKeepsPlanIff | libs/persistence/src/checkpoint.cpp:95-112 | from an accepted plan, under either tail policy and whichever removals succeed: recovery replays the same records exactly if no removal succeeds after one that failed |
| Pruning.LateRemovalLosesTheLog | libs/persistence/src/checkpoint.cpp:105-109 | a log of two covered segments that is refused after the first removal fails and the second succeeds |
| CheckpointPublish.ManifestRenameCommits | libs/persistence/src/checkpoint.cpp:306-328 | in every run, for every crash: before the manifest is renamed the new checkpoint is not recoverable, and once the directory is synced after it, it is |
| CheckpointPublish.AlwaysSomeCheckpoint | libs/persistence/src/checkpoint.cpp:306-366 | once some checkpoint survives any crash, one does at every later point, through publications, failures, retention and crashes |
| CheckpointPublish.PinnedSurvive | libs/persistence/src/checkpoint.cpp:343-366 | a pinned checkpoint is never removed |
| Retention.RetentionKeepsNewest | libs/persistence/src/checkpoint.cpp:330-366 | in every run, from the verification of a checkpoint to the end of its retention: the new one and the pinned stay, every one dropped is no newer than any other kept, no more goes than brings the list down to the number kept, it ends there or with only the new and the pinned left, and what is kept stays as recoverable as it was and is all that stays if the removals succeed |
| RestoreOrder.ProvidersInRestoreOrder | libs/persistence/src/checkpoint.cpp:154-200 | an order is given exactly if all dependencies are registered and acyclic; it is a permutation with every dependency before its dependents, and a provider comes before one with a smaller identifier only for the sake of one that needs it and whose identifier is no larger |
| BagCodec.ReadBag | libs/persistence/src/provider_world.cpp:160-206 | reading a bag in a loop is the specified parse, repeated keys refused |
| BagCodec.WriteBag | libs/persistence/src/provider_world.cpp:85-91 | the bytes of the bag's items in key order |
| WorldCheckpoint.WorldRoundTripIff | libs/persistence/src/provider_world.cpp:224-343 | encoding a world and restoring gives every object, bag, relation, capability and counter back, all bytes consumed, exactly when the world is within the limits |
| WorldCheckpoint.RestoredIsStorable | libs/persistence/src/provider_world.cpp:273-343 | whatever is accepted is within the limits |
| WorldProvider.EncodeWorld | libs/persistence/src/provider_world.cpp:224-264 | the payload of a frozen world, written value by value, is the specified one |
| WorldProvider.RestoreFrom | libs/persistence/src/provider_world.cpp:273-343 | the world becomes what the payload says, and keeps its contents and its snapshots if the payload is not in order |
| WorldProvider.SaveAndRestore | libs/persistence/src/provider_world.cpp:219-343 | a frozen world saved and restored elsewhere arrives exactly when it is within the limits |
| WorldStorage.World.Insert | libs/world_model/src/world.cpp:86-98 | means what it means on a plain map, shares nothing frozen, and moves the pointers only as told |
| WorldStorage.World.Erase | libs/world_model/src/world.cpp:100-107 | the same |
| WorldStorage.World.WritableFind | libs/world_model/src/world.cpp:109-121 | the contents stay, and the cell handed out is seen by no snapshot |
| WorldStorage.World.SetProperty | libs/world_model/src/world.cpp:142-150 | means what it means on a plain map and writes no cell a snapshot can see |
| WorldStorage.World.AddRelation | libs/world_model/src/world.cpp:152-161 | the same |
| WorldStorage.World.Update | libs/world_model/src/world.cpp:128-140 | the same |
| WorldStorage.World.Restore | libs/world_model/src/world.cpp:190-202 | the listed objects and counters, in new cells |
| WorldStorage.World.Freeze | libs/world_model/src/world.cpp:204-231 | the snapshot shows the world, and nothing it can see is writable afterwards, the generation reset included |
| WorldEffects.SetPropertyEffect | libs/world_model/src/world.cpp:142-150 | accepted exactly for an object that is there and not retired; then the key reads the value, and no other key, field or object changes but the version, which is one more |
| WorldEffects.AddRelationEffect | libs/world_model/src/world.cpp:152-161 | accepted exactly between objects that are there and with a kind; then the relation comes last and nothing else changes but the version |
| WorldEffects.InsertEffect | libs/world_model/src/world.cpp:86-98 | accepted exactly for a set identifier and version where nothing is yet; the object enters with a revision of its own and otherwise as given |
| WorldEffects.EraseEffect | libs/world_model/src/world.cpp:100-107 | accepted exactly for an object that is there, which is then gone and counted |
| WorldEffects.UpdateEffect | libs/world_model/src/world.cpp:128-140 | accepted exactly for an object that is there, which the mutation then replaces; nothing else changes |
| WorldEffects.ByIdIsLast | libs/world_model/src/world.cpp:190-202 | a restored world has the listed objects, the last one under each identifier |
| WorldRuns.ReadsLastAssigned | libs/world_model/src/world.cpp:142-161 | in every run that leaves an object in place each property reads the last value assigned, and the relations are those given to it, in order |
| WorldRuns.ReadsSinceInsertion | libs/world_model/src/world.cpp:86-161 | from an object's insertion on, each property reads the last value assigned since, or what it was inserted with |
| WorldStorage.RunOps | libs/world_model/src/world.cpp:86-231 | any sequence of operations: the live world means the plain one, every snapshot still shows what it was taken from, and equal size and revisions mean equal pointers unless the erase counter could have gone round |
| WorldStorage.SameRevisionsSamePointers | libs/projection/src/engine.cpp:118-133 | over any run: equal size, erase and storage revisions mean an unchanged set of object pointers |
| ThreadPool.ReturnedBatchIsComplete | libs/foundation/src/thread_pool.cpp:88-121 | in every interleaving, when a submission returns every index of every batch so far was called exactly once with its own function, every call is over, and no worker is left in it |
| ThreadPool.NoStaleClaims | libs/foundation/src/thread_pool.cpp:29-61 | at every moment no call is made twice or outside its batch, and whoever is about to claim claims for the current batch |
| ThreadPool.EveryTaskRunsIff | libs/foundation/src/thread_pool.cpp:76-121 | whenever no submission is under way, every task asked for has run exactly once if and only if there is a worker or there was nothing to run |
| CommandBuffer.CommandQueue.Enqueue | libs/simulation/src/command_buffer.cpp:16-26 | the command waits under the next sequence number, and none is accepted once the numbers are used up |
| CommandBuffer.CommandQueue.Apply | libs/simulation/src/command_buffer.cpp:28-82 | the due commands are executed one by one in sequence order, with one outcome each, and the others wait: an assignment is applied exactly if its object is there, not retired and of the version expected, the reason names what was amiss, a command not applied leaves the objects alone, and an applied one does what its payload says |
| CommandBuffer.CommandQueue.Snapshot | libs/simulation/src/command_buffer.cpp:86-88 | a snapshot is the numbers and the commands waiting, and leaves them as they are |
| CommandBuffer.DueAreExecuted | libs/simulation/src/command_buffer.cpp:28-82 | the same of the specification of applying: which commands are due, in which order they run, what each does and answers |
| CommandBuffer.CommandQueue.Restore | libs/simulation/src/command_buffer.cpp:90-110 | a snapshot is taken exactly if it is restorable |
| CommandBuffer.RestorableIff | libs/simulation/src/command_buffer.cpp:90-110 | in whatever order it lists them, a snapshot is restorable exactly if its sequence numbers are set, below the next one, and given once each |
| LateCommands.ReplayEqualsLiveIff | tools/gw-replay/main.cpp:77-107 | restoring a snapshot, submitting every later logged command up front, under whatever ingress numbers, and stepping gives the live run's reports with just these ingress numbers in place of the old, its world and its clock at every point exactly if no command arrived late after the snapshot |
| Ingress.TickRenumbered | libs/simulation/src/command_buffer.cpp:28-82 | giving the waiting commands other ingress numbers changes these in the outcomes and what stays waiting, and nothing else |
| WholeReports.WholeReportsIff | tools/gw-replay/main.cpp:83-88 | the reports are the same to the last field at every point exactly if no command arrived late and each one executed since the snapshot is submitted again under the ingress number it had |
| WholeReports.IngressIsLost | tools/gw-replay/main.cpp:83-88 | a command in time with ingress number seven: the live run reports seven, the replay none |
| LateCommands.LateCommandDiverges | libs/simulation/src/command_buffer.cpp:28-44 | a command for a tick already stepped: the live run has not executed it when replay has |
| ReplayDriver.ReplayLog | tools/gw-replay/main.cpp:77-107 | on any list of log records, decoded as it goes: the tool refuses exactly if a record does not read or cannot be submitted, and otherwise finds a mismatch exactly if a recorded hash differs |
| ReplayDriver.ReplayOwnLog | tools/gw-replay/main.cpp:64-110 | on the bytes of the live run's own records, each of which the log could keep and none late, the tool finishes with the live run's reports without ingress numbers, and in its world if the log asks for as many ticks |
| ReplayDriver.AsksForAll | tools/gw-replay/main.cpp:88-102 | the tool steps until every tick that a command is for or a hash was recorded at is behind it, and no further |
| LogReading.OwnCommandsReadBackIff | tools/gw-replay/main.cpp:78-90 | the commands read from the live run's own log are those it submitted, but for their ingress numbers, exactly if each is one the log can keep |
| LogReading.HashPointReadsBack | libs/persistence/src/recovery.cpp:229-241 | a recorded state hash reads back |
| DurableCodec.RecordRoundTripIff | libs/gateway/src/durable.cpp:355-418 | a logged command decodes to what the live run submits, under the same identity and tick, exactly if its texts fit and name what they must, its target is set, its hint is not after its tick, and a creation is for its target |
| DurableCodec.FingerprintsEqualIff | libs/gateway/src/durable.cpp:345-353 | equal fingerprints mean equal commands but for the identifier a creation asks for |
| DurableRecords.MakeFingerprint | libs/gateway/src/durable.cpp:345-353 | the fingerprint written value by value is the specified one |
| DurableRecords.EncodeCommandRecord | libs/gateway/src/durable.cpp:355-364 | the record written value by value is the specified one |
| DurableRecords.DecodeCommandRecord | libs/gateway/src/durable.cpp:366-418 | reading value by value is the specified decoding |
| DurableRecords.AdmittedIff | libs/gateway/src/gateway_core.cpp:153-215 | what is admitted is for a tick still to come and no further ahead than allowed, the one hinted at or the lead after the current one, and names what it is for |
| DurableRecords.ExternalIsDone | libs/gateway/src/gateway_core.cpp:170-215 | what an external command asks for is done when the buffer applies it |
| DurableRecords.AdmittedReplaysIff | libs/gateway/src/gateway_core.cpp:149-225 | an admitted command replays as it ran exactly if its texts fit and a creation is for its target |
| DurableRecords.UnreplayableCreation | libs/gateway/src/gateway_core.cpp:193-215 | an admitted creation without a target is logged and run, and its record cannot be read back |
| DurableRecords.UntargetedCreationIsLost | libs/gateway/src/gateway_core.cpp:193-215 | a concrete creation that is admitted and whose record cannot be read back |
| DurableRecords.OutcomeRoundTripIff | libs/gateway/src/durable.cpp:420-452 | an outcome is read back exactly if the principal's name fits and success comes without an error |
| DurableAdmission.GatewayCore.SubmitDurable | libs/gateway/src/gateway_core.cpp:281-370 | the answer and the new state of every submission, in the source's order of checks |
| DurableAdmission.GatewayCore.PollTicket | libs/gateway/src/gateway_core.cpp:384-429 | what the log's answer does to index, tickets, buffer and completion |
| DurableAdmission.GatewayCore.OnCommandApplied | libs/gateway/src/gateway_core.cpp:617-666 | what the buffer's answer does to a command and its key |
| DurableAdmission.EachKeyOnce | libs/gateway/src/gateway_core.cpp:281-430 | in every run a key's command goes to the buffer at most once, its record is appended exactly once more than it failed while the key is known, and a known key is in exactly one stage |
| DurableAdmission.EverySubmissionAnsweredOnce | libs/gateway/src/gateway_core.cpp:281-430 | in every run each submission has been answered exactly once or its ticket is open |
| DurableAdmission.LoggedIsKept | libs/gateway/src/durable.cpp:241-271 | in every run a key whose record is logged keeps content and LSN, moves at most once to its end, and never again |
| DurableAdmission.RetriesAgree | libs/gateway/src/gateway_core.cpp:294-330 | in every run a request repeated after its end is answered at once and always alike, or as a conflict if its content differs, and changes nothing else |
| DurableFates.RetryIsTold | libs/gateway/src/gateway_core.cpp:294-430 | in every run, from the events alone: a registered request repeated with the same content is told what the log and then the buffer answered: accepted, in the log, applied, or rejected with the error given, under the LSN and ingress number of its delivery; with another content it is a conflict |
| DurableFates.FailureFreesKey | libs/gateway/src/gateway_core.cpp:392-400 | in every run, when the log fails for a request its key is free again |
| DurableFates.AnsweredAtOnceIff | libs/gateway/src/gateway_core.cpp:281-352 | a request goes to the log exactly if session, key and admission are in order, its key is new, the log is ready and takes it, and numbers are left; else the answer says which was not |

## Findings

Where the source does not keep what its comments or documents promise, the model follows the source, a lemma shows an input,
and a theorem says exactly when the promise holds.

- A cached delta can miss an update: an acknowledgement that arrives after the value went back leaves a disagreement outside
  the candidate lists (libs/projection/src/engine.cpp:789-811; `StreamExamples.CachedScanMayMissAnUpdate`). It does not in
  coherent states (`StreamCoherence.CachedBuildIsFullBuild`), hence never in lockstep runs without cut updates.
- The current view is not always what the client shows: an entity that goes out of sight while its entering is in flight
  stays with the client (libs/projection/src/engine.cpp:604-612, 880-925; `StreamFailures.PromiseMayFail`); exactly when is
  `StreamViews.ViewPromiseIff`.
- A keyframe sent because FIDs ran out can never be acknowledged: its snapshot is the floor of its own epoch
  (libs/projection/src/engine.cpp:590-602; `StreamFailures.ExhaustionKeyframeIsRefused`, `StreamFids.FreshFrameAcceptedIff`).
- A frame whose record alone is over the configured limits can never be acknowledged either
  (libs/projection/src/connection.cpp:148-163; same theorem).
- An entity's update rate is only kept from one frame to the next: the acknowledged view remembers no send ticks, and every
  frame brings the entities it does not carry back to their acknowledged entries, so that after a frame without it an entity is
  sent again at once (libs/projection/src/engine.cpp:758-771, 880-912; `StreamRates.DelayIsForgotten`); exactly when an update
  is withheld is `StreamRates.WithheldIff`.
- Updates over the quota are cut by priority and FID, and not by how long they have waited, so the same one can be cut for ever
  (libs/projection/src/engine.cpp:842-851, against docs/M4.md:219; `StreamQuota.CutAgain`).
- A relevance filter that is taken away leaves the visible cache as it was before it: the next build is told of a hit although
  its connection was given less in between, and misses what reappears (libs/projection/src/engine.cpp:61-63, 507-528;
  `VisibleSet.FilterTakenAway`, `StreamFeeds.ReappearedIsMissed`, `StreamFeeds.FedRunIsRunIff`).
- The state queue drops a delta in favour of a newer one that need not mention the same entities
  (libs/gateway/src/queues.cpp:15-24; `StateQueue.CoalescingMayLose`); exactly when nothing is lost is
  `StateQueue.CoalescingIff`.
- A cell query above the grid's highest level finds nothing (libs/spatial/src/cell_grid.cpp:129-159;
  `CellIndex.QueryCompleteIff`).
- A world restored to the erase counter the engine saw last keeps vanished entities in the view
  (libs/projection/src/engine.cpp:267-285; `ProjectedRuns.RestoreHidesErasure`), and an update that bumps no version is not
  seen (libs/world_model/src/world.cpp:128-140; `ProjectedRuns.UnmarkedUpdateIsMissed`); the exact condition is
  `GlobalView.TickIsExactIff`.
- The log writer bounds a record's payload by the limit by which the reader bounds the whole body: a record in between is
  reported durable and then lost (libs/persistence/src/wal_writer.cpp:195-199; `WalOversize.DurableRecordIsLost`); exactly
  when everything survives is `WalOversize.DurableSurvivesIff`.
- A writer restarted over blank segments goes on where they start, even below what the checkpoint includes, and what it then
  logs is not replayed (libs/persistence/src/wal_writer.cpp:144-163; `WalFloor.FloorIsUndercut`, `WalFloor.AboveFloorIff`,
  `WalFloor.BelowFloorIsSkipped`).
- Pruning goes on after a removal that failed, and the hole it can leave makes the log unrecoverable
  (libs/persistence/src/checkpoint.cpp:99-109; `Pruning.LateRemovalLosesTheLog`, `Pruning.PruningKeepsPlanIff`).
- A command that arrives after its tick makes replay differ from the live run
  (libs/simulation/src/command_buffer.cpp:28-44; `LateCommands.LateCommandDiverges`, `LateCommands.ReplayEqualsLiveIff`).
- Replayed commands carry no ingress number, live ones do, so the outcomes replay reports differ in it
  (tools/gw-replay/main.cpp:83-88, libs/gateway/src/gateway_core.cpp:411; `WholeReports.IngressIsLost`,
  `WholeReports.WholeReportsIff`).
- Admission of a durable creation checks the identifier asked for, and the record keeps the target: a creation whose two
  differ replays as another object, and one without a target cannot be read back (libs/gateway/src/gateway_core.cpp:193-215,
  libs/gateway/src/durable.cpp:355-364; `DurableRecords.UnreplayableCreation`, `DurableRecords.UntargetedCreationIsLost`,
  `DurableRecords.AdmittedReplaysIff`). For the same reason two creations that ask for different identifiers have equal
  fingerprints (libs/gateway/src/durable.cpp:345-353; `DurableCodec.FingerprintsEqualIff`).
- Without a worker thread the pool returns from a submission with nothing run (libs/foundation/src/thread_pool.cpp:88-121;
  `ThreadPool.EveryTaskRunsIff`).

## Left out

- WalDurability.DurableRecordsSurvive: its runs are those of a writer without a recovery floor, so the log starts at LSN 1; where a writer with a floor goes on is `WalFloor`, and logs that start later, after pruning, are the subject of `Pruning` and `Recovery`.
- WalDurability.DurableRecordsSurvive: holds if what the writer may take fits the reader's limit with header and checksum; that this is exactly when is `WalOversize.DurableSurvivesIff`.
- Recovery.BuildPlan: the checkpoint is given; finding the newest valid one, or the one a branch starts from, is not modelled.
- Pruning.PruningKeepsPlanIff: is about the sorted list of segments, at most one of them active; that a directory listing gives that list is `WalDirectory.NamesTellSegments`.
- DurableAdmission.EachKeyOnce: a key found logged in the index at start-up has no command in this model; the recovery that resubmits such commands is `apps/geoworldd` code and not part of it.
- StateQueue.Queue.Push: the class deletes superseded frames by building the kept list, where the source erases inside the deque.
- CellIndex.DynamicCellIndex.QueryCandidates: positions are real numbers; rounding and the conversion of cell numbers to 64 bits are not modelled.
- ProjectionEngine.Engine.Observe: projections are computed when they are merged, one object at a time; that computing them in parallel chunks beforehand calls each once is `ThreadPool`.
- ProjectionEngine.Engine.Observe: the history of change sets and its retirement are not modelled.
- Why an entity leaves (destroyed, out of the area, not relevant) is told to the client and not modelled.
- Rate limits, leases, authorization and session tickets enter `DurableAdmission` and `DurableRecords` only as answers given.
- Update rates are configured in frames per second; the model has the intervals in ticks that follow from them.
- LSN exhaustion: the writer's last LSN is excluded from its steps.
- The other checkpoint providers and the checkpoint file around the provider blocks repeat the shape of the world payload.
- The index rebuilt from the log at start-up (`DurableIdempotencyIndex::restore`) is not connected to `DurableAdmission`; any index without registered keys may be the first.
- Sockets, TLS, gRPC, mmap, zstd, FlatBuffers, Lua, WASM, the ECS, the rules, AI and editor parts of the repository.
