# Flux scheduler: page accounting, prefix cache and stream replay

A Dafny model of the control plane in `flux-scheduler` and of the idempotent stream replay in
`python/fluxserve/backend/entrypoints/http_server.py`, with proofs of what the code relies on.

- **Radix tree, tiers, locks, eviction** (`PageTree`, `TreeEdits`, `TierState`, `TierEdits`, `TreeWalk`, `TreeFrames`,
  `CacheState`, `CacheLocks`, `CacheWalk`, `CacheRefs`, `CacheEvict`, `CachePrune`, `CacheAttach`, `CacheInsert`,
  `CacheDemote`, `CachedPaths`, `BlockEvents`). The compressed tree is a map from node ids to nodes; its meaning is a trie
  from page paths to cells with a device page, a host page and lock counts. `CacheInv` ties tree, leaf index, lock counts
  and live references together; every operation keeps it and says what it does to the trie, to the free pages, and to the
  log of block events.
- **Requests and scheduler** (`RequestState`, `RequestSteps`, `LocalPages`, `PrefillEvents`, `DecodeEvents`, `WriteBack`,
  `WriteBackEvents`, `World`, `SchedulerState`, `Scheduler`, `Accounting`, `PrefillInputs`, `ChunkedPrefill`, `ShortPrefill`). Each transition is a step of
  one request over the shared cache; class `Scheduler` runs any sequence of submissions, plans and outside events.
- **Paged-cache groups** (`PagedCacheTable`, `Snapshots`, `StateFallback`, `CommitSteps`, `Admission`, `BatchAdmission`).
  One request's table of one group, the segments it leaves behind, and admission against simulated counts.
- **Snapshot tree** (`SnapshotColumns`, `SnapshotPaths`, `SnapshotTree`, `SnapshotRuns`, `CacheRuns`, `HybridCache`,
  `CanonicalState`, `CanonicalRun`).
  All groups together: snapshots on tree nodes, commits, prefix hits, and any run of them with evictions in between.
- **Replay registry** (`StreamReplay`): publishers and subscribers as interleaved turns of one event loop.

`dafny verify dfyconfig.toml` checks everything.

## Findings

Where a property fails in the code, a lemma gives the input and the exact condition.

1. An insertion that is stopped at a node with a snapshot overwrites that node's link (`radix_tree.cpp:177-181`,
   `tree_node.cpp:47`): `CacheInsert.Insert` refines trie insertion if and only if this does not happen;
   `BlockedInsert.InsertBreaks` is a cache for which it does.
2. A planning round throws when more of a prompt is cached than its prefill length reaches: the first window has a negative
   size, and reserving its inputs throws (`forward_states.h:43-57`). `PrefillEvents.FirstChunk` has the exact condition on
   the pages found, `ShortPrefill.NegativeWindow` a cache for every request whose prefill length ends before its whole pages
   do. If it ends a page or more short, the load-back can leave too few device pages before that, which the transition does
   not check (`forward_events.cpp:101-103`): `PrefillEvents.ApplyFirstChunk`, `ShortPrefill.FirstChunkFails`.
3. Retracting a request whose device path covers all its tokens takes a negative number of pages and throws
   (`forward.cpp:208-211`): exactly the condition of `WriteBackEvents.Retract`.
4. A finish throws exactly if the whole pages of the tokens exceed the pages held: `WriteBackEvents.Finish`.
5. Aborting a request whose retraction is still being copied leaves the copy running on pages the request no longer holds,
   and its report can end the wait of another request submitted under the same id: `HandleAbort`, `HandleWriteBackDone`.
6. A negative reserve makes the next decode step of a decoding request throw, and the next result too, after its tokens
   were taken: `DecodeEvents.Decode`, `DecodeEvents.ExtendResult`.
7. Admission promises too much when a due commit is not made, as when a decode step is planned again before its result
   (`hybrid_prefix_cache.cpp:851-864`, `forward.cpp:353-366`): `Admission.UncommittedExactly`, `UncommittedExample`. When a
   sliding history group commits: `SlidingHistoryExactly`, `SlidingHistoryExample`. When a hit has a base but no ids for a
   group: `EmptyHitForecast`, `EmptyHitExample`. And when the continuation snapshot at the end of a commit lends pages of a
   state group that is not required in snapshots, which the release was to give back (`hybrid_prefix_cache.cpp:129-189`,
   `:841-864`): `ContinuationExactly`, `ContinuationExample`.
8. If the first required group is a state group, the continuation snapshot can put it ahead of the history groups; the
   next commit then lays down two history steps as one, and a hit has more pages than tokens:
   `CanonicalState.StateFirstBreaks`, reached from an empty cache by `CanonicalRun.RunBreaks`. A commit keeps segments whole exactly under the condition of `SnapshotRuns.LayExactly`;
   with a history group first it always holds (`CommittedKeeps`).
9. Restoring state without the checked assembler leaves gaps exactly if more than one segment is taken and the group's
   window does not span more than the alignment less a page: `StateFallback.PlainStateExactly`. The number taken follows the
   widest window of all groups, so a narrow window beside a wide one fails.

## Model

| member | source | states |
|---|---|---|
| Scheduler.Scheduler.Run | flux-scheduler/csrc/scheduler/scheduler.cpp:295-338 | Any sequence of submissions, plans and outside events, up to the first exception: after every event the pages of both tiers are conserved, every lock count is the number of references at or below its node, both tiers are prefix-closed with exact leaf indexes, every request fits its phase, every outstanding copy that is not stale is still captured, and the event log replays to what is on the device. |
| Scheduler.Scheduler.constructor | flux-scheduler/csrc/scheduler/scheduler.cpp:59-75 | A new scheduler satisfies that invariant. |
| Scheduler.Scheduler.NewForwardOperations | flux-scheduler/csrc/scheduler/operations/forward.cpp:399-507 | A plan stays within the batch size, exceeds the token budget by less than one decode step, mixes no retraction with forward work, and fails only for a request that ends on a page boundary when retracted, was given a negative reserve, or has more whole pages than its prefill length covers when its first chunk is scheduled. |
| Scheduler.Scheduler.NextExecutionPlan | flux-scheduler/csrc/scheduler/scheduler.cpp:295-338 | One round keeps the invariant; finished requests are erased before anything is scheduled. |
| Scheduler.Scheduler.NewWriteBackOperations | flux-scheduler/csrc/scheduler/scheduler.cpp:270-293 | Every draining request is handed out once, under an id that leads back to it, with just its captured pairs; one without pairs is let go; no other request changes. |
| Scheduler.Scheduler.HandleAbort | flux-scheduler/csrc/scheduler/outside_event_handler.cpp:118-126 | Fails exactly for a request writing back; afterwards the request holds nothing; a copy still running after a retraction becomes stale. |
| Scheduler.Scheduler.HandleWriteBackDone | flux-scheduler/csrc/scheduler/outside_event_handler.cpp:128-146 | A report that is not stale ends just the wait of the request it was made for; a stale one is ignored, fails, or ends the wait of a request submitted anew under the same id. |
| Scheduler.Scheduler.HandleFinish | flux-scheduler/csrc/scheduler/outside_event_handler.cpp:87-104 | The finished request is let go, drains or writes back, and its whole pages are in the cache as far as it had pages for them. |
| Scheduler.Scheduler.HandleExtend | flux-scheduler/csrc/scheduler/outside_event_handler.cpp:111-116 | Fails exactly in the four states that take no results and for a decoding request with a negative reserve; else the tokens are appended, and no other request changes. |
| Scheduler.Scheduler.Victim | flux-scheduler/csrc/scheduler/operations/forward.cpp:487-503 | The request to retract has the most tokens of those that decode. |
| World.WorldStep | flux-scheduler/csrc/scheduler/scheduler.cpp:340-410 | A step of one request that keeps its own side and leaves the others their references and pages is a step of the whole scheduler. |
| Accounting.PagesPartitioned | flux-scheduler/csrc/scheduler/scheduler.cpp:340-410 | Each page id from 1 on is exactly once free, in the tree, or with one request, on the device; on the host free or in the tree. |
| Accounting.CheckNeverFails | flux-scheduler/csrc/scheduler/scheduler.cpp:340-410 | The run-time memory check can never find a lost or doubled page. |
| Accounting.CapturedPairsHold | flux-scheduler/csrc/fsm/forward_states.h:271-295 | Whatever happened since, each captured pair of a request is the device and host page of one stored path of its tokens, locked on both tiers. |
| Accounting.OutstandingCopyHolds | flux-scheduler/csrc/scheduler/scheduler.cpp:270-293 | The same for every copy the executor may still be making, unless it has gone stale. |
| Accounting.LockedByRequest | flux-scheduler/csrc/resource/radix_tree/tree_node.h:153-192 | Every locked node lies on the path some request holds: no lock is left over. |
| Accounting.EventsExact | flux-scheduler/csrc/resource/kv_prefix_cache/kv_prefix_cache.cpp:63-163 | With an injective block hash, replaying all events from nothing gives exactly the chained hashes of device-resident blocks, both directions. |
| SchedulerState.CopiesUnique | flux-scheduler/csrc/scheduler/scheduler.cpp:270-293 | No two live copies belong to one request. |
| PageTree.DescendSpells | flux-scheduler/csrc/resource/radix_tree/radix_tree.cpp:136-197 | Spelling a path from the root leads only to the place whose path it is, so the compressed tree is a function from page paths to cells. |
| TreeEdits.SplitKeepsTrie | flux-scheduler/csrc/resource/radix_tree/tree_node.cpp:60-106 | A split in place leaves the page-path meaning as it was: pages, lock counts and stored paths. |
| TreeEdits.HangDescend | flux-scheduler/csrc/resource/radix_tree/tree_node.cpp:41-48 | A new child adds just its own paths. |
| TreeEdits.RemoveDescend | flux-scheduler/csrc/resource/radix_tree/radix_tree.cpp:80-98 | Removing a childless node forgets just its own paths. |
| TierState.SplitTier | flux-scheduler/csrc/resource/radix_tree/tree_node.cpp:92-100 | A split, which copies the lock count, keeps prefix closure, exact lock counts and the exact leaf index. |
| TierState.UpdateLeavesRepairs | flux-scheduler/csrc/resource/kv_prefix_cache/eviction.h:96-118 | Refreshing a node and its parent repairs their entries in the leaf index and disturbs no other. |
| TierState.HeldIsLocked | flux-scheduler/csrc/resource/radix_tree/tree_node.h:153-192 | A node with a live reference at or below it is locked. |
| TierState.LockedIsHeld | flux-scheduler/csrc/resource/radix_tree/tree_node.h:153-192 | A locked node has a live reference at or below it. |
| TierState.RefsMonotone | flux-scheduler/csrc/resource/radix_tree/tree_node.h:153-192 | Lock counts never grow downwards. |
| TierEdits.LockRefs | flux-scheduler/csrc/resource/radix_tree/tree_node.h:175-180 | Locking a root path for a new reference keeps every count the number of references at or below its node. |
| TierEdits.UnlockRefs | flux-scheduler/csrc/resource/radix_tree/tree_node.h:181-190 | Unlocking undoes just the path that was locked, and no count on it is already zero. |
| CacheLocks.Lock | flux-scheduler/csrc/resource/radix_tree/tree_node.h:175-180 | Taking a reference keeps the cache invariant with the reference added, and changes only counts. |
| CacheLocks.Unlock | flux-scheduler/csrc/resource/radix_tree/tree_node.h:181-190 | Dropping a reference keeps it with the reference gone, and refreshes a leaf that becomes evictable. |
| TreeWalk.MatchedPages | flux-scheduler/csrc/resource/radix_tree/radix_tree.cpp:50-62 | The matched pages are the longest common front of two runs of pages. |
| TreeWalk.MatchedPagesByTokens | flux-scheduler/csrc/resource/radix_tree/radix_tree.cpp:50-62 | Comparing tokens and dividing by the page size counts them. |
| CacheWalk.SplitChild | flux-scheduler/csrc/resource/radix_tree/radix_tree.cpp:66-78 | The new node takes the front of the run; nothing the tree means changes. |
| CacheWalk.Walk | flux-scheduler/csrc/resource/radix_tree/radix_tree.cpp:136-197 | The walk keeps the invariant and the meaning, and ends at the longest stored, device-resident and host-resident prefixes, or is stopped at a snapshot it must not split. |
| CacheRefs.Match | flux-scheduler/csrc/resource/kv_prefix_cache/kv_prefix_cache.cpp:165-200 | The returned nodes are the ends of the longest device-resident and host-resident prefixes of the query, or the root when reuse is off. |
| CacheRefs.MatchesNest | flux-scheduler/csrc/resource/types.cpp:29-47 | Both tiers' matches lie on one root path. |
| CacheInsert.Insert | flux-scheduler/csrc/resource/kv_prefix_cache/kv_prefix_cache.cpp:201-317 | Refines trie insertion, exactly when the query does not leave the trie inside a node with a snapshot: page i keeps its page or takes offered page i - d, nothing else changes, unadopted pages go back, and the count is of the adopted ones; otherwise the tree is broken. |
| CacheInsert.OverwriteBreaks | flux-scheduler/csrc/resource/radix_tree/tree_node.cpp:41-48 | Adding a child over an existing key leaves a tree that is not well-formed. |
| BlockedInsert.InsertBreaks | flux-scheduler/csrc/resource/kv_prefix_cache/kv_prefix_cache.cpp:228-236 | A cache in order in which an insertion is stopped at a snapshot and breaks the tree. |
| CacheAttach.NodesWithout | flux-scheduler/csrc/resource/types.cpp:37-47 | The nodes of a root path that are off a tier, leaf first, and the number of pages they lack. |
| CacheAttach.AllocateResourceOfType | flux-scheduler/csrc/resource/kv_prefix_cache/kv_prefix_cache.cpp:415-458 | Brings a root path onto a tier all or nothing; it succeeds exactly if as many pages are free as the path lacks. |
| CacheEvict.EvictLoop | flux-scheduler/csrc/resource/kv_prefix_cache/eviction.h:121-177 | Terminates although an eviction can make its parent a leaf; frees the pages asked for or everything evictable; never takes a node without need; only unlocked nodes lose pages. |
| CacheEvict.TookLeaf | flux-scheduler/csrc/resource/kv_prefix_cache/eviction.h:132-166 | Each round takes the oldest candidate. |
| CachePrune.EnsureCapacityByEvict | flux-scheduler/csrc/resource/kv_prefix_cache/kv_prefix_cache.cpp:345-356 | Succeeds exactly if the free pages and the pages on unlocked nodes of the tier suffice; evicts nothing when there is room and stops as soon as there is. |
| CachePrune.PruneEvicted | flux-scheduler/csrc/resource/kv_prefix_cache/kv_prefix_cache.cpp:327-343 | Removes exactly the evicted nodes that are empty and whose parent was not evicted with them; every entry of the list is still in the tree when it is read. |
| CachePrune.PruneEmptyByNode | flux-scheduler/csrc/resource/radix_tree/radix_tree.cpp:80-98 | Exactly the nodes from the start up to below the stopping node are gone; they held no pages on either tier and had no children but one another, and all other nodes are as they were. The stopping node is the root or not empty. |
| CacheDemote.ReleaseDeviceResourcesPresentOnHost | flux-scheduler/csrc/resource/kv_prefix_cache/kv_prefix_cache.cpp:358-388 | Gives up device pages only of unlocked nodes that the host also has, from the node upwards to the first it must keep; all invariants hold. |
| CacheDemote.DemoteKeepsData | flux-scheduler/csrc/resource/kv_prefix_cache/kv_prefix_cache.cpp:358-388 | A path that loses its device page keeps its host page; nothing else changes. |
| CacheRefs.MakeRoom | flux-scheduler/csrc/scheduler/operations/forward.cpp:87-93 | Evicting under a temporary lock keeps every reference and the matched node. |
| CacheRefs.Hold | flux-scheduler/csrc/resource/radix_tree/tree_node.h:153-192 | A new reference replaces the old one, locking first. |
| BlockEvents.RecordStored | flux-scheduler/csrc/resource/kv_prefix_cache/kv_prefix_cache.cpp:137-147 | Publishes just the blocks of the node not published yet. |
| BlockEvents.RecordRemoved | flux-scheduler/csrc/resource/kv_prefix_cache/kv_prefix_cache.cpp:149-163 | Retracts just the blocks of the node that were published. |
| BlockEvents.PublishStored | flux-scheduler/csrc/resource/kv_prefix_cache/kv_prefix_cache.cpp:309-314 | After insertion or load-back the published hashes are still exactly those on the device. |
| BlockEvents.PublishRemoved | flux-scheduler/csrc/resource/kv_prefix_cache/kv_prefix_cache.cpp:349-353 | After eviction or demotion too. |
| BlockEvents.HashInNode | flux-scheduler/csrc/resource/kv_prefix_cache/kv_prefix_cache.cpp:77-120 | A block has one hash, and it is among those of the node it lies in, however nodes were split. |
| CachedPaths.CachedMatch | flux-scheduler/csrc/resource/kv_prefix_cache/kv_prefix_cache.cpp:165-187 | A path that was inserted or loaded is matched to its end. |
| PagePool.Allocate | flux-scheduler/csrc/resource/allocator/page_allocator.cpp:43-61 | All or nothing, from the back of the free stack; no id is lost or doubled. |
| LocalPages.Acquire | flux-scheduler/csrc/resource/allocator/kv_allocator.cpp:38-54 | Takes just the pages the tokens need beyond the tail of the last page, or nothing. |
| LocalPages.AcquireAdditive | flux-scheduler/csrc/resource/allocator/kv_allocator.cpp:38-54 | However tokens are chunked, the pages held are the ceiling of their sum over the page size. |
| PrefillEvents.FirstChunkRoom | flux-scheduler/csrc/scheduler/operations/forward.cpp:73-93 | The room asked for before a first chunk with load-back suffices exactly when nothing is loaded back or the tokens left over do not fall a whole page short of zero. |
| PrefillEvents.ScheduleFirstChunk | flux-scheduler/csrc/scheduler/operations/forward.cpp:61-112 | The match is the longest on both tiers and the room asked for is there when the chunk is scheduled. |
| PrefillEvents.ApplyFirstChunk | flux-scheduler/csrc/fsm/forward_events.cpp:95-136 | The state transition fails exactly when a load-back leaves fewer device pages than the chunk takes; else the request holds its match and its window, which may have a negative size, starts there. |
| PrefillEvents.FirstChunk | flux-scheduler/csrc/scheduler/operations/forward.cpp:278-302 | Scheduling, transition and operation of a first chunk: once scheduled it throws exactly if the pages found in the cache reach beyond the prefill length; else its window starts after the longest matches. It is scheduled whenever the room is there. |
| ShortPrefill.NegativeWindow | flux-scheduler/csrc/fsm/forward_states.h:43-57 | For every request whose prefill length ends before its whole pages do there is a cache in order for which its first chunk is scheduled and throws: with FirstChunk, exactly these requests are at risk. |
| ShortPrefill.NegativeWindowExample | flux-scheduler/csrc/fsm/forward_states.h:43-57 | Nine tokens in pages of four, five to be prefilled: device pages cannot run short, and yet it can throw. |
| ShortPrefill.FirstChunkFails | flux-scheduler/csrc/fsm/forward_events.cpp:95-136 | For every request whose prefill length and decode step end a page or more short of its whole pages there is a cache in order for which the load-back leaves too few device pages. |
| PrefillEvents.PrefillChunk | flux-scheduler/csrc/fsm/forward_events.cpp:138-170 | A later chunk never fails for lack of pages; its window goes on where the last one ended. |
| PrefillEvents.InsertHybridCache | flux-scheduler/csrc/fsm/forward_events.cpp:71-93 | Whole pages beyond the request's node move to the tree and its reference to their end; pages held before and after are as many. |
| DecodeEvents.Decode | flux-scheduler/csrc/fsm/forward_events.cpp:172-205 | A decode step fails exactly on a negative reserve, never for lack of pages. |
| DecodeEvents.DecodeFromRetracted | flux-scheduler/csrc/fsm/forward_events.cpp:207-234 | Recovery never fails, and the request goes on from the longest matches. |
| DecodeEvents.ExtendResult | flux-scheduler/csrc/fsm/forward_events.h:277-345 | Fails exactly in four states and for a decoding request with a negative reserve; else results are appended, and a completed page is offered to the tree, all but the last token's. |
| DecodeEvents.UpdateReserve | flux-scheduler/csrc/fsm/forward_events.h:253-275 | Accepted exactly in four states, and only a decoding request takes the value. |
| WriteBackEvents.Finish | flux-scheduler/csrc/fsm/forward_events.cpp:235-280 | Fails exactly in four states or when the whole pages of the tokens exceed those held; else the pages are in the cache and, with a host tier, copied or being copied. |
| WriteBackEvents.Retract | flux-scheduler/csrc/fsm/forward_events.cpp:346-378 | Fails exactly when the request's device path covers all its tokens; else its pages are cached and it waits on the host, is copying, or is aborted for want of host room. |
| WriteBackEvents.RetractOverrun | flux-scheduler/csrc/scheduler/operations/forward.cpp:198-211 | When the count of pages to offer is negative. |
| WriteBackEvents.Abort | flux-scheduler/csrc/fsm/forward_events.cpp:306-344 | Fails exactly while writing back; else everything is given up. |
| WriteBackEvents.WriteBackDone | flux-scheduler/csrc/fsm/forward_events.cpp:288-304 | A finished request is gone, a retracted one waits on the host with its host path untouched. |
| WriteBackEvents.CommitDraining | flux-scheduler/csrc/fsm/forward_events.cpp:282-286 | Pairs are handed on unchanged. |
| WriteBack.BuildWriteBackPairs | flux-scheduler/csrc/fsm/forward_events.cpp:45-55 | The pairs are the device and host pages of all the nodes, in order, each of one stored path. |
| WriteBack.DevicePagesFromRoot | flux-scheduler/csrc/resource/radix_tree/node_range.h:123-127 | The device pages of a root path, root first. |
| ChunkedPrefill.InputsTile | flux-scheduler/csrc/fsm/forward_events.cpp:95-170 | For any budgets the chunks' inputs are the tokens from the start to where the chunks end, without gap or overlap. |
| ChunkedPrefill.ShiftedTile | flux-scheduler/csrc/fsm/forward_states.h:43-57 | The shifted inputs are the tokens one further on, then a single -1 at the prefill's end. |
| ChunkedPrefill.RunTiles | flux-scheduler/csrc/fsm/forward_events.cpp:95-170 | The windows a request is given are those of the tiling; it is done exactly when its window ends at the prefill length, and what is left shrinks with every chunk. |
| PrefillInputs.ComputeShiftedInputIds | flux-scheduler/csrc/fsm/forward_states.h:43-57 | Throws exactly for a window of negative size; else the loop computes the shifted window. |
| ChunkedPrefill.FirstWindowCut | flux-scheduler/csrc/fsm/forward_events.cpp:95-136 | The first window is due to be negative exactly when the cached pages reach beyond the prefill length; otherwise it is that of the tiling. |
| PagedCacheTable.PagesNeededIsCeil | flux-scheduler/csrc/resource/allocator/paged_cache_group.cpp:102-104 | Rounding up entries and then rows is rounding up tokens to pages once. |
| PagedCacheTable.PagedCacheGroupTable.Acquire | flux-scheduler/csrc/resource/allocator/paged_cache_group.cpp:90-118 | Grows by exactly the pages lacking, or fails and changes nothing. |
| PagedCacheTable.PagedCacheGroupTable.CommitHistoryToSnapshot | flux-scheduler/csrc/resource/allocator/paged_cache_group.cpp:120-171 | Lends the next owned pages, which stay in view; when it fails. |
| PagedCacheTable.PagedCacheGroupTable.AdoptSnapshotSegment | flux-scheduler/csrc/resource/allocator/paged_cache_group.cpp:173-210 | The snapshot's pages take the places of the next owned ones, which go back; when it fails. |
| PagedCacheTable.PagedCacheGroupTable.CheckpointStateToSnapshot | flux-scheduler/csrc/resource/allocator/paged_cache_group.cpp:212-289 | Drops what lies below the window and lends the owned pages up to the target; each segment page is the table's page of its place. |
| PagedCacheTable.PagedCacheGroupTable.AdoptStateSnapshotSegment | flux-scheduler/csrc/resource/allocator/paged_cache_group.cpp:291-364 | A segment that passes the guards always fits: the errors about too few local pages are unreachable. |
| PagedCacheTable.PagedCacheGroupTable.ImportPrefixBorrowed | flux-scheduler/csrc/resource/allocator/paged_cache_group.cpp:366-386 | The table covers its cursor exactly if the hit's ids reach the tokens they are said to cover. |
| PagedCacheTable.PagedCacheGroupTable.ReleaseSkipped | flux-scheduler/csrc/resource/allocator/paged_cache_group.cpp:388-433 | Front pages go, owned ones back to the pool; an empty table only moves its base. |
| PagedCacheTable.PagedCacheGroupTable.RewindTail | flux-scheduler/csrc/resource/allocator/paged_cache_group.cpp:435-468 | Owned tail pages beyond the accepted tokens go back; committed ones stay. |
| PagedCacheTable.PagedCacheGroupTable.Run | flux-scheduler/csrc/resource/allocator/paged_cache_group.cpp:82-487 | Any operations in any order: pages reach the cursor, the commit point stays within it, the view is borrowed then owned, and no page is lost or doubled. |
| PagedCacheTable.PagedCacheGroupTable.Apply | flux-scheduler/csrc/resource/allocator/paged_cache_group.cpp:82-487 | No operation moves a page that stays, except that an adoption replaces just its segment. |
| PagedCacheTable.StateAdoptionFits | flux-scheduler/csrc/resource/allocator/paged_cache_group.cpp:316-352 | Why a segment that ends at an acquired, aligned target fits. |
| CommitSteps.AlwaysWithin | flux-scheduler/csrc/resource/allocator/paged_cache_group.cpp:330-352 | The same for a step of a commit. |
| CommitSteps.FirstGives | flux-scheduler/csrc/resource/allocator/paged_cache_group.cpp:212-289 | A commit step of a state group gives back at least what its first checkpoint drops, even if it takes over a segment. |
| Snapshots.AssembleState | flux-scheduler/csrc/resource/hybrid_prefix_cache/hybrid_prefix_cache.cpp:407-460 | Any success is free of gaps and right at every index, whatever the chain. |
| Snapshots.ScanSound | flux-scheduler/csrc/resource/hybrid_prefix_cache/hybrid_prefix_cache.cpp:407-460 | Why: the scan collects only ids that some segment records for their place. |
| Snapshots.CheckpointReassembles | flux-scheduler/csrc/resource/allocator/paged_cache_group.cpp:212-289 | After any legal run before and after a checkpoint, the segments left behind up to it reassemble into exactly the pages the table had in the checkpoint's window. |
| Snapshots.RunSound | flux-scheduler/csrc/resource/allocator/paged_cache_group.cpp:212-289 | Through any growing, sliding, rewinding and checkpointing, the segments are what the table had. |
| Snapshots.AssembleHistory | flux-scheduler/csrc/resource/hybrid_prefix_cache/hybrid_prefix_cache.cpp:369-392 | The concatenation of all segments. |
| StateFallback.FallbackExactly | flux-scheduler/csrc/resource/hybrid_prefix_cache/hybrid_prefix_cache.cpp:597-605 | The unchecked concatenation is what the table had exactly if one segment is taken or the window spans more than the alignment less a page; else the ids end short of the target. |
| StateFallback.PlainStateExactly | flux-scheduler/csrc/resource/hybrid_prefix_cache/hybrid_prefix_cache.cpp:552-605 | The same for a hit's state group, where the widest window of all groups decides how many segments are taken. |
| StateFallback.FallbackReaches | flux-scheduler/csrc/resource/hybrid_prefix_cache/hybrid_prefix_cache.cpp:552-560 | Segments that span the window start no later than the window. |
| StateFallback.FallbackExample | flux-scheduler/csrc/resource/hybrid_prefix_cache/hybrid_prefix_cache.cpp:597-605 | Two checkpoints for which it goes wrong. |
| SnapshotPaths.PreflightExactly | flux-scheduler/csrc/resource/hybrid_prefix_cache/hybrid_prefix_cache.cpp:1102-1142 | The next step of a history group passes the check before it exactly if its boundary is acquired and sliding has not passed what is committed; pages never lack. |
| SnapshotPaths.InStepExactly | flux-scheduler/csrc/resource/hybrid_prefix_cache/hybrid_prefix_cache.cpp:1120-1142 | A commit lays down just the step that ends at the target exactly if the group has committed up to the boundary before. |
| SnapshotPaths.RidesLay | flux-scheduler/csrc/resource/hybrid_prefix_cache/hybrid_prefix_cache.cpp:1163-1183 | Committing a step joins its segment to the chain the table goes on from. |
| SnapshotPaths.RidesTake | flux-scheduler/csrc/resource/hybrid_prefix_cache/hybrid_prefix_cache.cpp:85-127 | Taking over another request's step never fails for a history group, and the table goes on from it. |
| SnapshotPaths.RidesImport | flux-scheduler/csrc/resource/hybrid_prefix_cache/hybrid_prefix_cache.cpp:684-717 | Importing a hit gives a table that goes on from the hit's chain. |
| Snapshots.HistoryImport | flux-scheduler/csrc/resource/hybrid_prefix_cache/hybrid_prefix_cache.cpp:369-392 | k whole steps number exactly the pages of k alignment steps and cover their tokens. |
| SnapshotRuns.LayExactly | flux-scheduler/csrc/resource/hybrid_prefix_cache/hybrid_prefix_cache.cpp:1163-1199 | A commit keeps every history segment one whole step exactly if every required history group has committed up to the boundary before. |
| SnapshotRuns.CommittedKeeps | flux-scheduler/csrc/resource/hybrid_prefix_cache/hybrid_prefix_cache.cpp:1073-1203 | A whole commit, wherever it stops, keeps the invariant when the first required group is a history group. |
| SnapshotRuns.EndedKeeps | flux-scheduler/csrc/resource/hybrid_prefix_cache/hybrid_prefix_cache.cpp:129-189 | So does the continuation snapshot at its end. |
| SnapshotRuns.AugmentedOk | flux-scheduler/csrc/resource/hybrid_prefix_cache/hybrid_prefix_cache.cpp:464-609 | Whatever the path, the hit's history ids are the pages of its first steps in order, and all ids are held by snapshots up to the node it ends at. |
| SnapshotRuns.WalkLongest | flux-scheduler/csrc/resource/hybrid_prefix_cache/hybrid_prefix_cache.cpp:478-492 | The walk goes exactly as far as boundaries carry complete history without a break. |
| SnapshotRuns.UsableMost | flux-scheduler/csrc/resource/hybrid_prefix_cache/hybrid_prefix_cache.cpp:562-583 | Of those steps the most are used whose last snapshots have state. |
| HybridCache.HybridPrefixCache.CommitChunk | flux-scheduler/csrc/resource/hybrid_prefix_cache/hybrid_prefix_cache.cpp:1073-1203 | The loop computes the commit and keeps the invariant. |
| HybridCache.HybridPrefixCache.Match | flux-scheduler/csrc/resource/hybrid_prefix_cache/hybrid_prefix_cache.cpp:464-609 | The loops compute the hit. |
| HybridCache.HybridPrefixCache.Apply | flux-scheduler/csrc/resource/hybrid_prefix_cache/hybrid_prefix_cache.cpp:684-760 | Any operation in place. |
| CacheRuns.NextKeeps | flux-scheduler/csrc/resource/hybrid_prefix_cache/hybrid_prefix_cache.cpp:684-760 | Matching, acquiring, moving on, committing, rewinding, releasing, unlocking and evicting keep the invariant. |
| CacheRuns.HitsAreWhole | flux-scheduler/csrc/resource/hybrid_prefix_cache/hybrid_prefix_cache.cpp:464-609 | After any run, whatever path is matched, each required history group's ids number exactly the pages of the hit's tokens, whole steps in order, and importing them covers those tokens. |
| CacheRuns.BorrowedIsHeld | flux-scheduler/csrc/resource/hybrid_prefix_cache/hybrid_prefix_cache.cpp:208-233 | After any run, a page a running request borrows belongs to a snapshot on its locked path: it is not free and no request owns it. |
| SnapshotColumns.LayPages | flux-scheduler/csrc/resource/hybrid_prefix_cache/hybrid_prefix_cache.cpp:1163-1183 | Laying a segment moves pages between pool, table and snapshot and loses none. |
| CanonicalState.StateFirstBreaks | flux-scheduler/csrc/resource/hybrid_prefix_cache/hybrid_prefix_cache.cpp:1081-1087 | With a state group first, two commits lead from a state in order to a hit with four pages for three tokens. |
| CanonicalRun.RunBreaks | flux-scheduler/csrc/resource/hybrid_prefix_cache/hybrid_prefix_cache.cpp:1081-1087 | A legal run of fourteen operations from an empty cache, two requests and one eviction of a state snapshot, leads through that state to that hit. |
| Admission.Check | flux-scheduler/csrc/resource/hybrid_prefix_cache/hybrid_prefix_cache.cpp:762-887 | The forecast is what releasing and acquiring do, except that a due commit of a state group is taken to give back what its first checkpoint drops. |
| Admission.NeedAsForecast | flux-scheduler/csrc/resource/hybrid_prefix_cache/hybrid_prefix_cache.cpp:866-869 | The pages forecast are those taken. |
| Admission.EmptyHitForecast | flux-scheduler/csrc/resource/hybrid_prefix_cache/hybrid_prefix_cache.cpp:806-838 | A hit without ids but with a base is forecast right exactly if the base is not beyond what the window skips, or nothing is needed beyond it. |
| Admission.EmptyHitExample | flux-scheduler/csrc/resource/hybrid_prefix_cache/hybrid_prefix_cache.cpp:806-838 | One page forecast too few. |
| Admission.UncommittedExactly | flux-scheduler/csrc/resource/hybrid_prefix_cache/hybrid_prefix_cache.cpp:851-864 | A chunk whose due commit is not made is over-admitted exactly if the release stops short of owned pages below the checkpoint's window. |
| Admission.UncommittedExample | flux-scheduler/csrc/scheduler/operations/forward.cpp:353-366 | A decode step planned again before its result has come. |
| Admission.ContinuationExactly | flux-scheduler/csrc/resource/hybrid_prefix_cache/hybrid_prefix_cache.cpp:129-189 | A state group whose chunk ends with a continuation checkpoint, no commit being due, keeps its count within the free pages exactly if the release credits no owned page between the checkpoint's window and its target; otherwise acquiring runs out of pages in some pool exactly if it needs more than comes back. |
| Admission.EndingCovers | flux-scheduler/csrc/resource/hybrid_prefix_cache/hybrid_prefix_cache.cpp:851-864 | Where a commit was due, a checkpoint at or beyond its boundary gives back what was forecast. |
| Admission.ContinuationExample | flux-scheduler/csrc/resource/hybrid_prefix_cache/hybrid_prefix_cache.cpp:841-864 | A group that only travels with the prefix: three free pages and one forecast to come back are found enough for four, and none comes back. |
| CommitSteps.EndGives | flux-scheduler/csrc/resource/hybrid_prefix_cache/hybrid_prefix_cache.cpp:129-189 | What a continuation checkpoint and the release after it give back, from the table before both. |
| Admission.SlidingHistoryExactly | flux-scheduler/csrc/resource/hybrid_prefix_cache/hybrid_prefix_cache.cpp:841-864 | The commit of a sliding history group keeps the forecast exactly if it lends no page or takes over as many as the release was to give back. |
| Admission.SlidingHistoryExample | flux-scheduler/csrc/resource/hybrid_prefix_cache/hybrid_prefix_cache.cpp:841-864 | A commit that lends the page the release was to give back. |
| BatchAdmission.ForecastSafe | flux-scheduler/csrc/resource/hybrid_prefix_cache/hybrid_prefix_cache.cpp:762-946 | For commits of any number of steps, laid or taken over, the continuation checkpoint of any state group after them, recoveries and fresh hits: no more pages are promised back than will come, and no fewer needed than will be taken. |
| BatchAdmission.AdmitChunk | flux-scheduler/csrc/resource/hybrid_prefix_cache/hybrid_prefix_cache.cpp:923-946 | Admitted for all groups or for none, exactly if all have room; then, with the continuation checkpoints the chunk may end in, acquiring never fails and no count exceeds the free pages. |
| BatchAdmission.Plan | flux-scheduler/csrc/scheduler/operations/forward.cpp:432-484 | The same over a whole planning round of any mix of requests, each decided on the counts its predecessors left. |
| BatchAdmission.CarryStep | flux-scheduler/csrc/resource/hybrid_prefix_cache/hybrid_prefix_cache.cpp:1073-1199 | One commit step in place does what the step says. |
| BatchAdmission.CarryEnding | flux-scheduler/csrc/resource/hybrid_prefix_cache/hybrid_prefix_cache.cpp:129-189 | So does the continuation checkpoint. |
| StreamReplay.RequestReplayRegistry.Run | python/fluxserve/backend/entrypoints/http_server.py:207-242 | Any interleaving of clients, producers and cancellations keeps every stream and subscriber in order. |
| StreamReplay.RequestReplayRegistry.EmittedInOrder | python/fluxserve/backend/entrypoints/http_server.py:225-242 | Each client has received a prefix of its stream, in order and once; all of it if it ran to the end. |
| StreamReplay.RequestReplayRegistry.OneProducerPerKey | python/fluxserve/backend/entrypoints/http_server.py:55-66 | At most one stream of a key is unfinished. |
| StreamReplay.RequestReplayRegistry.RunToEnd | python/fluxserve/backend/entrypoints/http_server.py:225-242 | Left alone, a subscriber of a finished stream gets every event. |
| StreamReplay.RequestReplayRegistry.Acquire | python/fluxserve/backend/entrypoints/http_server.py:55-66 | Joins, refuses or creates; the order of entries afterwards; an owner only when no unfinished stream has the key. |
| StreamReplay.RequestReplayRegistry.Evict | python/fluxserve/backend/entrypoints/http_server.py:79-96 | Computes the surviving entries. |
| StreamReplay.EvictionSpares | python/fluxserve/backend/entrypoints/http_server.py:79-96 | No unfinished entry is dropped, no expired one kept, and the limits hold unless the oldest entry is unfinished. |
| StreamReplay.RequestReplayRegistry.Publish | python/fluxserve/backend/entrypoints/http_server.py:68-71 | Recorded once and queued for every follower. |
| StreamReplay.RequestReplayRegistry.StartFollowing | python/fluxserve/backend/entrypoints/http_server.py:228-233 | A caught-up client misses nothing between replay and its queue. |

## Left out

- L3 prefetch, `PrefetchDone` and `CacheCoordinator`: no caller in the planner reaches them.
- The scheduler runs with the paged-cache groups switched off: `NoSnapshots` holds throughout, and group admission enters a
  round as a set of admitted requests. Groups and snapshots are covered by their own runs (`BatchAdmission`, `CacheRuns`).
- The snapshot tree does not model device residency or lock counts of nodes: a run says which node each request holds, and
  snapshots are evicted only where no request's node is at or below, as the lock counts of the first part guarantee.
- Which candidates a round visits first, and free slots of the request pool, are parameters of the round.
- The state after a throw, except where a contract says it is unchanged.
- The pruning that admission tries before it refuses: which snapshot it picks is not modelled, only that evicting snapshots
  nobody holds keeps every property. Simulated counts are refreshed from the pools after it.
- Block hashes are recomputed from the path instead of cached on nodes; events carry the hash and not their other fields;
  the listener is there from the start. SHA and FNV are an uninterpreted hash, injective where a property needs it.
- Tree, tier managers and tables of the snapshot tree are values threaded through methods and held in fields of the classes:
  no aliasing between tree nodes is modelled. Tables of one group and the registry are updated in place.
- Time is an integer given with each call; nothing is claimed about recency, since a touched leaf keeps its key.
- 32-bit overflow; C++ division is modelled with truncation where operands can be negative.
- Token sequences that are no whole number of pages, which `Match` and `Insert` refuse, are not passed: queries are sequences
  of pages.
- Plan flattening, load-back transfer lists, statistics, logging and bindings.
- CacheInsert.Insert: has no branch for a node the run covers only in part (`kv_prefix_cache.cpp:265-271`): the run is the
  whole path of the last node, so every node on it is covered.
- CachePrune.EnsureCapacityByEvict: the leaf with the oldest key goes first; that this is the least recently used is not claimed.
- BatchAdmission.Plan: two chunks of one request in one round, a first chunk of nothing and the decode after it, are two calls
  of `AdmitChunk`; the round's theorem has each request once.
- BatchAdmission.AdmitChunk: which commit steps and which continuation checkpoint a chunk makes come with the request, as long
  as they pass the source's guards and the conditions of finding 7; when the snapshot tree makes them is `HybridCache`'s part.
- SnapshotTree.SplitAt: nodes are the set of their end paths; runs and resources of nodes are those of the first part.
- SnapshotRuns.EndedKeeps: state groups in a continuation snapshot keep their pages and their holders; which pages a state
  group's window has after a mix of takeovers and checkpoints is shown for one request's own chain only.
