# KV-cache block manager and dummy-batch quota: a verified model

The project models two components of the inference engine and proves what their users rely on.

**The KV-cache block manager.** A paged-memory allocator hands out block ids of device memory. Blocks are
reference counted; forked sequences share them until one appends (copy-on-write); full blocks are cached by the
hash of their whole prefix; cached blocks nobody uses wait in a lazily cleaned LRU heap until their id is needed.
Block tables cut a sequence into blocks, on one rank or dealt over several; a new prompt takes over the blocks of its
prefix that are found in the cache.

**The dummy-batch quota.** N processes must run the same number of batches. Each has a scheduler thread that
acquires quota and a sync thread; they meet only in blocking all-gathers, so every rank has to pick the same kind
of all-gather in every round.

A third, small part is the arithmetic that splits warm-up tokens into request lengths.

## How it is built

State that the program updates in place is a class (`PrefixCacheBlockAllocator`, `LRUEvictor`, `BlockTable`,
`RankTable`, `HashLessBlockAllocator`, `HashLessBlockTable`, `CachingBlock`); its methods keep the program's branches,
loops and error exits. Each allocator method is proved equal to a transition on a value (`PrefixCacheSpec`, `HashlessSpec`),
and the hard properties are proved about those transitions and about whole runs of them. A `BlockTable` stands for
one token list; each of its methods says what it does to that list, to the ids left, and to everyone else's blocks.
Over the allocator without prefix caching a table's operation is a run of allocator operations: groups of sequences
and swaps are proved about such runs.

| file | contents |
|---|---|
| basics, arithmetic | identifiers, sentinels, results; division facts |
| chunking | how a token list falls into blocks, and how many more blocks it needs |
| prefix_chain | a block's history (`Chain`), its hash, placeholders |
| lru_evictor | the evictor |
| prefix_cache_spec, _steps | the prefix-caching allocator as transitions, and its invariant |
| prefix_cache_operations, _runs | its operations, and whole runs of them |
| prefix_cache_allocator | the same allocator in place |
| computed_flag | when the answer "cached and computed" may be believed |
| cache_reports | what a prompt finds in the cache, from when on and for how long |
| cache_reuse | what a prompt saves: which of its blocks take ids, and where they end |
| eviction_order | in which order cached blocks give up their ids |
| cache_reset | resetting the prefix cache, and what it leaves behind |
| hashless_spec, _proofs, hashless_allocator | the allocator without hashes, the device memory behind it |
| hashless_table, hashless_block_table, hashless_swap | its tables as runs and in place, groups of sequences, swaps |
| block_table_spec, _steps, block_table | a sequence's table on one rank |
| append_admission | the estimate for appending, and groups of sequences |
| rank_placement, rank_admission, hashless_rank | prefill over several ranks, with either allocator, and its admission |
| rank_append, rank_decode, rank_mislead | decoding over several ranks: in place, as it changes chains, and whom that misleads |
| computed_prefix | which prefix is computed, locally and in the pool |
| prefix_hashing, lazy_hash | the two hash computations; the memo of a hash |
| swap | swapping between devices |
| dummy_quota, dummy_quota_proofs | the quota protocol |
| warmup_split | the warm-up split |

## Assumptions

* The hash of a block is an uninterpreted function of the previous block's hash, the tokens and the extra hash. It
  is never 0 and does not collide on blocks of one size (`CollisionFree`); the program compares hashes only, so
  cache hits mean nothing otherwise. `CollisionFreeExists` shows that hashes of unbounded size can meet the
  assumption; the program's `HashCombine` has 64 bits and meets it only as long as no two blocks in use collide.
* Placeholder tokens form a suffix of a sequence, and `ReplaceToken` is called on unshared blocks only, behind the
  prefix in which the block's known tokens were computed: it has no copy-on-write.
* The chain before a block is what `prevBlock_` shows when tokens are put in, and the hash is a function of that
  chain. Walking back over a table's blocks shows the same at any later time (`WalkedHash`); `LazyHash` shows when a
  recomputation agrees that comes after some of them were freed.
* With prefix caching the device carries out a copy when it is recorded and computes tokens when they become known,
  and only these, on top of what the memory of the block's id holds (`WriteBack`); without, both happen in a later
  pass, copies first (`DevicePass`).
* `MarkBlocksAsComputed` is called once the device has computed everything put in so far (`ComputedFlag`).
* Timestamps are exactly ordered integers.
* The guard of the sync loop is one snapshot; `TornGuardExact` says exactly what changes if other steps come between
  its reads.
* A thrown exception ends the operation; what an interrupted operation leaves behind is not described.

## Where the code falls short of its own description

* The quota guard is right exactly while the rank is not between its push and its subtraction with the last quota and
  an empty queue (`GuardExact`). A single guard evaluated in that window ends all rounds for ever, whatever the number
  of ranks and the quota, and behind any other guard a round can still complete (`TimelinessExact`).
  `StaleGuardDeadlocks` is a run of two ranks that gets there. Read in parts, the guard also goes wrong exactly if the
  last quota is subtracted between its reads (`TornGuardExact`); `TornGuardReached` is a run that gets there, for any
  number of ranks and any quota.
* The append estimate ignores the ids that copy-on-write takes. Appending to a table succeeds exactly given ids for
  the new blocks and one for a shared tail (`AppendSlot`), a group exactly given these for all its sequences
  (`AppendGroup`; with prefix caching provided no block gets hashed, since a block that finds its content cached gives
  its id back). Where no tail is shared the estimate is enough. `SharedBlockDefeatsEstimate` is a run in which the
  estimate is met and the append fails.
* `NEVER` is said of every hopeless prefill exactly for one rank or without reserved blocks; otherwise some request
  waits for ever (`NeverIsExact`). What `NEVER` does say is right (`NeverIsFinal`).
* A forked block's hash is first computed when it is freed, behind predecessors whose extra hash has been reset; it is
  right exactly if no predecessor had one (`LazyHashRight`). Freeing its last holder otherwise ends in the allocator's
  own error (`LateFreeFails`); `LateFreeReached` is a run of two blocks that are allocated with an extra hash, forked
  and freed.
* The evictor's tie rule holds exactly if no heap entry that claims the most tokens at the oldest age belongs to a
  block with fewer tokens than another of that age (`TieRuleExact`). It can fail only once a block has come back, with
  fewer tokens, at the age of an earlier stay that left its entry behind (`AddedTruthful`); a block that is freed, hit,
  freed, evicted, reused and freed gets there (`StaleEntryBreaksTie`).
* Copies carried out before the pending writes of their sources lose tokens. A run loses none exactly if, whenever a
  shared block is copied or left, everything pending on its id is written or owed by someone who stays
  (`CarefulRunExact`); a copy itself is right exactly if all it does not write itself was there (`AppendCorrect`).
  `CarelessnessLosesTokens` has three runs that do lose a token.
* A block counts as computed as soon as the evictor has it. From the start, what is reported as computed has been
  computed exactly if no last holder frees a block before the device is done with it (`HonestFromStart`;
  `EarlyFreeReports` is a run of two operations). From other states it takes one thing more: no block may be completed
  on an id that was still listed as touched from an earlier owner (`HonestRunExact`), which an early free leads to
  (`StaleMarkReached`). Where blocks are freed in time, a prompt finds exactly its leading cached blocks that have been
  computed (`FindsComputed`).
* The last block of a prompt may sit out of turn on the last rank; the cross-rank count then leaves it out even when it
  is computed (`PrefixOfTable`, `FullTable`). `LastBlockOutOfTurn` is the case of three blocks over two ranks.
* Decoding under several ranks puts each new block behind its own rank's last block, and files it there. That is behind
  the tokens it is computed behind exactly for one rank (`FiledRight`). The prompt that leaves out what the other ranks
  have taken in between has the same chain, and takes the block over: for every prompt of whole rounds and every
  decoding of one round (`DecodedLikePrompt`, `PromptMisled`).
* Resetting the prefix cache goes through exactly while no id is in use (`ResetWhenIdle`), but keeps the cache entries
  of the ids it frees. What it leaves is in order exactly if nothing was cached (`ResetExact`); otherwise a prompt can be
  served another's tokens (`ResetServesWrong`).

## Model

| member | source | states |
|---|---|---|
| PrefixCacheRuns.CacheTransparent | src/block_manager/prefix_cache_block_allocator.cpp:74-156 | after any legal run every live block is what an allocator without sharing would hold, and the device, which carried out the recorded copies and computed only newly known tokens, holds exactly its known tokens, behind its whole prefix, under the id it is read through |
| PrefixCacheRuns.IdsPartitioned | src/block_manager/prefix_cache_block_allocator.cpp:119-172 | each id is in exactly one of free deque, evictor, use; its count is the number of its holders; it is active exactly while in use |
| PrefixCacheRuns.IdsCanonical | src/block_manager/prefix_cache_block_allocator.cpp:225-276 | the cache is injective and leads to ids that are in use or in the evictor, never both; evictor entries map back; a hashed block sits on the id cached for its hash; two shareable blocks share an id exactly if their whole prefixes are equal |
| PrefixCacheRuns.ApplyCorrect | src/block_manager/prefix_cache_block_allocator.cpp:47-276 | every legal operation keeps the invariant and the sharing-free contents; no internal check fires; only exhaustion stops it |
| PrefixCacheRuns.RunCorrect | src/block_manager/prefix_cache_block_allocator.cpp:47-276 | the same for every run |
| ComputedFlag.HonestExact | src/block_manager/prefix_cache_block_allocator.cpp:466-471 | from a state in which everything reported as computed is, an operation leads to another exactly if it frees no pending block for good and completes none on an id marked too early |
| ComputedFlag.HonestRunExact | src/block_manager/prefix_cache_block_allocator.cpp:292-297 | throughout a run everything reported as computed has been computed since it was put in, exactly if all operations are such |
| ComputedFlag.HonestFromStart | src/block_manager/prefix_cache_block_allocator.cpp:466-471 | from the start, everything reported as computed has been computed throughout a run exactly if no last holder frees a hashed block before the device is done with it |
| ComputedFlag.EarlyFreeReports | src/block_manager/prefix_cache_block_allocator.cpp:225-251 | completed and freed before the device is done, a block is reported as computed: a run of two operations |
| ComputedFlag.StaleMarkReports | src/block_manager/prefix_cache_block_allocator.cpp:292-297 | an id still touched from an earlier owner is marked for the new one, whose completed block is then reported at once |
| ComputedFlag.StaleMarkReached | src/block_manager/prefix_cache_block_allocator.cpp:292-297 | allocate, free, allocate, mark, append: a run of a single block that gets there |
| CacheReports.MarkedRunFinds | src/block_manager/prefix_cache_block_allocator.cpp:253-297 | after any legal run that ends with MarkBlocksAsComputed every cached block is found: no id touched before is forgotten |
| CacheReports.FoundedNotFound | src/block_manager/prefix_cache_block_allocator.cpp:253-260 | a block put in under a hash of its own is cached but not found, and found after the next mark |
| CacheReports.FreedFound | src/block_manager/prefix_cache_block_allocator.cpp:225-251 | freed by its last holder, a hashed block is found by its hash, on its id |
| CacheReports.FoundUntilEvicted | src/block_manager/prefix_cache_block_allocator.cpp:404-485 | whatever is found stays found, on its id, by every operation but the one that evicts just that id, and then it is gone or unmarked |
| CacheReports.FoundAgain | src/block_manager/prefix_cache_block_allocator.cpp:404-414 | over a whole run that evicts none of their ids, later prompts with the same hashes reuse the same blocks, held or freed meanwhile |
| CacheReports.FindsComputed | src/block_manager/prefix_cache_block_allocator.cpp:404-485 | from the start, with no block freed before the device is done with it, what FindCachedBlocksPrefix answers are the leading hashes that are cached and whose content has been computed, all of them and no others |
| CacheReuse.PlacementReuses | src/block_manager/prefix_cache_block_allocator.cpp:84-105 | a hit takes no free id, changes no entry and no report and lands on the cached id, which alone leaves the evictor; a miss takes the front of the free deque if there is one; nobody else's use changes |
| CacheReuse.LeadingStay | src/block_manager/block_table.cpp:373-376 | the leading cached blocks of a prompt end on the ids they are cached under; if that is all, free deque, entries and reports are unchanged |
| CacheReuse.ReusedFails | src/block_manager/prefix_cache_block_allocator.cpp:144-156 | a block that is not cached when nothing is left is one more than the ids at the start covered |
| EvictionOrder.FreedClaims | src/block_manager/prefix_cache_block.cpp:113-122 | the entry of block k of a table, freed by its last holder, claims exactly the k + 1 blocks up to its end |
| EvictionOrder.PrefixOutlives | src/block_manager/lru_evictor.h:50-56 | while no entry exaggerates, of two waiting blocks of one chain with equal stamps the earlier is never evicted first |
| CacheReset.ResetWhenIdle | src/block_manager/prefix_cache_block_allocator.cpp:425-429 | a reset goes through exactly if no object holds an id |
| CacheReset.ResetExact | src/block_manager/prefix_cache_block_allocator.cpp:425-443 | what it leaves is in order exactly if nothing was cached |
| CacheReset.ResetServesWrong | src/block_manager/prefix_cache_block_allocator.cpp:425-443 | a prompt is served, freed and the cache reset; another takes its id, and the first, back again, finds the other's tokens: a run of allocator operations |
| PrefixCacheOperations.AllocateBlockIdCorrect | src/block_manager/prefix_cache_block_allocator.cpp:119-156 | an id is found exactly if one is free or evictable, the front of the free deque first; it is unused, starts unmarked and unstamped, and the number left falls by one; an evicted id loses its entry, and nothing else changes |
| PrefixCacheOperations.SettleCorrect | src/block_manager/prefix_cache_block_allocator.cpp:253-276 | a block that became shareable ends on its own id or on the cached one, whose content it already is; it gives an id back exactly if the cached one is in use |
| PrefixCacheOperations.ComputedRight | src/block_manager/prefix_cache_block_allocator.cpp:299-317 | computing the rest of a block completes it exactly if the memory below holds the part before in the same context: what a copy is for |
| PrefixCacheOperations.AppendTokenIdsCorrect | src/block_manager/prefix_cache_block_allocator.cpp:492-500 | appending fails exactly if a shared block finds no id; otherwise only this object changes; if it was shared, the recorded copy leads from its old id to the unused one it ends on, at the cost of that id |
| PrefixCacheOperations.AllocateMutableBlockCorrect | src/block_manager/prefix_cache_block_allocator.cpp:47-59 | allocation fails exactly without ids and otherwise adds one object |
| PrefixCacheOperations.AllocateImmutableBlockCorrect | src/block_manager/prefix_cache_block_allocator.cpp:74-105 | a hit cannot fail, a miss fails exactly without ids; either way one object is added |
| PrefixCacheOperations.ReplaceTokenCorrect | src/block_manager/prefix_cache_block_allocator.cpp:502-508 | replacing a placeholder of an unshared block succeeds and changes only that block; its memory keeps the tokens before |
| PrefixCacheOperations.FreeCorrect | src/block_manager/prefix_cache_block_allocator.cpp:158-179 | freeing cannot fail and removes one object; the last holder's id goes to the back of the free deque, or, hashed, to the evictor with its last stamp and the length of its whole chain, block by block; nothing else changes |
| PrefixCacheOperations.ForkBlocksCorrect | src/block_manager/prefix_cache_block_allocator.cpp:181-210 | forking a chain cannot fail and needs no id |
| PrefixCacheOperations.MarkBlocksAsComputedCorrect | src/block_manager/prefix_cache_block_allocator.cpp:292-297 | exactly the touched ids become computed, none stays touched, every cached block is then reported, and invariant and contents are kept |
| PrefixCacheOperations.MarkBlockAsAccessedCorrect | src/block_manager/prefix_cache_block_allocator.cpp:278-290 | stamping a used id succeeds, sets its time and nothing else, and keeps the invariant |
| PrefixCacheOperations.MarkBlocksAsAccessedCorrect | src/block_manager/prefix_cache_block_allocator.cpp:278-290 | stamping a list sets the time of just the ids in it, and is refused exactly if one of them is not in use |
| PrefixCacheOperations.AppendRefuses | src/block_manager/prefix_cache_block.cpp:38-51 | appending refuses outright exactly a hashed block and too many tokens, and an object that holds no id |
| PrefixCacheOperations.StaysAlone | src/block_manager/prefix_cache_block_allocator.cpp:299-317 | an unshared, unhashed block stays unshared while others are placed or appended to |
| PrefixCacheSteps.TakeEvicted | src/block_manager/prefix_cache_block_allocator.cpp:119-142 | reusing an evicted id drops its cache entry and no live block's content |
| PrefixCacheSteps.JoinContent | src/block_manager/prefix_cache_block_allocator.cpp:84-96 | the id a hit yields already holds the content that would have been computed |
| PrefixChain.ChainHashInjective | src/block_manager/prefix_cache_block.cpp:81-111 | equal hashes of complete chains mean equal chains |
| PrefixChain.KnownMeaning | src/block_manager/prefix_cache_block.cpp:56-79 | the known tokens are the ones before the placeholder suffix |
| PrefixCacheAllocator.PrefixCacheBlockAllocator.constructor | src/block_manager/prefix_cache_block_allocator.cpp:18-45 | all ids free, nothing cached |
| PrefixCacheAllocator.PrefixCacheBlockAllocator.MayBeAllocateEvictedBlockId | src/block_manager/prefix_cache_block_allocator.cpp:119-142 | the evictor's first current entry names the id that loses its cache entry and is used again |
| PrefixCacheAllocator.PrefixCacheBlockAllocator.AllocateBlockId | src/block_manager/prefix_cache_block_allocator.cpp:144-156 | the front of the free deque, else the id of the evictor's first current entry |
| PrefixCacheAllocator.PrefixCacheBlockAllocator.IncrRefCountCacheBlock | src/block_manager/prefix_cache_block_allocator.cpp:212-223 | one more holder of a cached id, revived from the evictor if need be |
| PrefixCacheAllocator.PrefixCacheBlockAllocator.DecrRefCountCacheBlock | src/block_manager/prefix_cache_block_allocator.cpp:225-251 | one holder less; without holders the id becomes a candidate for eviction, with what `FreeCorrect` and `FreedClaims` say it claims |
| PrefixCacheAllocator.PrefixCacheBlockAllocator.FreeBlockId | src/block_manager/prefix_cache_block_allocator.cpp:158-172 | the object gives up its id, to the evictor if it is hashed, else to the free deque |
| PrefixCacheAllocator.PrefixCacheBlockAllocator.CowBlockIfNotAppendable | src/block_manager/prefix_cache_block_allocator.cpp:299-317 | a shared block moves to a fresh id and the pair is recorded |
| PrefixCacheAllocator.PrefixCacheBlockAllocator.PromoteToImmutableBlock | src/block_manager/prefix_cache_block_allocator.cpp:253-276 | the block founds its cache entry or joins the existing one |
| PrefixCacheAllocator.PrefixCacheBlockAllocator.AppendTokenIds | src/block_manager/prefix_cache_block_allocator.cpp:492-500 | the object's own append, copy-on-write and promotion; fails exactly if shared without spare id |
| PrefixCacheAllocator.PrefixCacheBlockAllocator.ReplaceToken | src/block_manager/prefix_cache_block_allocator.cpp:502-508 | replaces one token and promotes if that completes the block |
| PrefixCacheAllocator.PrefixCacheBlockAllocator.AllocateMutableBlock | src/block_manager/prefix_cache_block_allocator.cpp:47-59 | a new object with the tokens on an id of its own or, if full, the cached one |
| PrefixCacheAllocator.PrefixCacheBlockAllocator.AllocateImmutableBlock | src/block_manager/prefix_cache_block_allocator.cpp:74-105 | a new object on the cached id, else as a mutable block |
| PrefixCacheAllocator.PrefixCacheBlockAllocator.Free | src/block_manager/prefix_cache_block_allocator.cpp:174-179 | frees one object; never fails |
| PrefixCacheAllocator.PrefixCacheBlockAllocator.Fork | src/block_manager/prefix_cache_block_allocator.cpp:181-210 | copies of a whole chain, chained in the same order, on the same ids |
| PrefixCacheAllocator.PrefixCacheBlockAllocator.MarkBlocksAsComputed | src/block_manager/prefix_cache_block_allocator.cpp:292-297 | all touched ids become computed, none stays touched |
| PrefixCacheAllocator.PrefixCacheBlockAllocator.MarkBlocksAsAccessed | src/block_manager/prefix_cache_block_allocator.cpp:278-290 | succeeds exactly if all ids are in use, and stamps them; keeps the invariant either way |
| PrefixCacheAllocator.PrefixCacheBlockAllocator.ClearCopyOnWrites | src/block_manager/copy_on_write_tracker.cpp:28-32 | hands over the recorded pairs in order and forgets them |
| PrefixCacheAllocator.PrefixCacheBlockAllocator.FindCachedBlocksPrefix | src/block_manager/prefix_cache_block_allocator.cpp:404-414 | the ids of exactly the longest prefix of hashes that are found (`FoundIds`), which `CacheReports` ties to what was put in, marked, freed and evicted |
| LruEvictor.LRUEvictor.Evict | src/block_manager/lru_evictor.cpp:23-41 | fails exactly without candidates; pops to the first current entry and removes its candidate |
| LruEvictor.LRUEvictor.Add | src/block_manager/lru_evictor.cpp:43-51 | adds the candidate and its entry, or rebuilds the heap from the candidates once it is 50 times their number |
| LruEvictor.LRUEvictor.Remove | src/block_manager/lru_evictor.cpp:57-61 | removes the candidate, leaves the heap |
| LruEvictor.LRUEvictor.Cleanup | src/block_manager/lru_evictor.cpp:65-73 | the heap holds exactly the candidates |
| LruEvictor.PopStale | src/block_manager/lru_evictor.cpp:29-40 | popping a stale entry loses no current one |
| LruEvictor.EvictsOldest | src/block_manager/lru_evictor.cpp:23-41 | the victim's time is minimal |
| LruEvictor.TieRuleExact | src/block_manager/lru_evictor.h:50-56 | ties go to the longest prefix exactly if no entry that claims the most tokens at the oldest age belongs to a block with fewer than another of that age |
| LruEvictor.HonestEntryFair | src/block_manager/lru_evictor.h:50-56 | an entry that claims no more than its candidate has yields a longest of the oldest |
| LruEvictor.AddedTruthful | src/block_manager/lru_evictor.cpp:42-50 | adding a candidate leaves no entry that claims too much exactly if no earlier stay of the block at this age had more tokens |
| LruEvictor.TruthfulIsFair | src/block_manager/lru_evictor.cpp:24-40 | while no current entry claims too much, ties go to the longest prefix |
| LruEvictor.StaleEntryBreaksTie | src/block_manager/lru_evictor.cpp:57-61 | the evictor calls of a block freed, hit, freed, evicted, reused with fewer tokens and freed leave only a victim that breaks the tie rule |
| HashlessProofs.PagedMemoryRefines | src/block_manager/hashless_block_allocator.cpp:89-154 | after any legal run the objects have the lists they would own alone; behind a device pass an id shows that list exactly if each of its tokens was computed or owed, as a careful run leaves it for all |
| HashlessProofs.PassCorrect | src/block_manager/copy_on_write_tracker.cpp:24-32 | copies in recorded order, then writes in any order: an object's id holds its own tokens exactly if each was computed or owed by a holder of the id |
| HashlessProofs.ApplyCorrect | src/block_manager/hashless_block_allocator.cpp:44-154 | every legal operation keeps the ledger and the separate lists; only exhaustion stops it |
| HashlessProofs.RunCorrect | src/block_manager/hashless_block_allocator.cpp:44-154 | the same for every run |
| HashlessProofs.AppendCorrect | src/block_manager/hashless_block_allocator.cpp:233-237 | appending fails exactly if a shared block finds no id. A block that moves to a copy shows its tokens exactly if all it will not write itself was there; the sharers it leaves exactly if they can do without what it owed; nobody else is affected |
| HashlessProofs.ForkCorrect | src/block_manager/hashless_block_allocator.cpp:105-133 | a fork shares the id, leaves pending writes to its source, and is in order exactly if that is |
| HashlessProofs.FreeCorrect | src/block_manager/hashless_block_allocator.cpp:89-103 | freeing cannot fail and removes one holder; the sharers left stay in order exactly if they can do without what it owed |
| HashlessProofs.CarefulExact | src/block_manager/copy_on_write_tracker.cpp:24-32 | from a state in which everything is computed or owed, an operation leads to another exactly if no copy misses, and no departing object takes along, what is still pending |
| HashlessProofs.CarefulRunExact | src/block_manager/hashless_block_allocator.cpp:89-154 | nothing is lost anywhere in a run exactly if every operation in it is careful |
| HashlessProofs.CarelessnessLosesTokens | src/block_manager/copy_on_write_tracker.cpp:24-32 | three runs of three operations, each ending in a careless one, after which the device shows a wrong token |
| HashlessAllocator.HashLessBlockAllocator.constructor | src/block_manager/hashless_block_allocator.cpp:19-30 | all ids free |
| HashlessAllocator.HashLessBlockAllocator.AllocateBlockId | src/block_manager/hashless_block_allocator.cpp:32-40 | the front of the free deque |
| HashlessAllocator.HashLessBlockAllocator.FreeBlockId | src/block_manager/hashless_block_allocator.cpp:89-96 | one holder less; without holders the id is free again |
| HashlessAllocator.HashLessBlockAllocator.CowBlockIfNotAppendable | src/block_manager/hashless_block_allocator.cpp:144-154 | a shared block moves to a fresh id and the pair is recorded |
| HashlessAllocator.HashLessBlockAllocator.AllocateMutableBlock | src/block_manager/hashless_block_allocator.cpp:44-52 | fails exactly without free ids, else one new object |
| HashlessAllocator.HashLessBlockAllocator.AppendTokenIds | src/block_manager/hashless_block_allocator.cpp:233-237 | appends, copying a shared block; fails exactly if shared without free id |
| HashlessAllocator.HashLessBlockAllocator.Fork | src/block_manager/hashless_block_allocator.cpp:105-133 | walks the chain back and copies all of it, chained in the same order, each block on its source's id; cannot fail |
| HashlessAllocator.HashLessBlockAllocator.Free | src/block_manager/hashless_block_allocator.cpp:98-103 | frees one object; cannot fail |
| HashlessBlockTables.HashLessBlockTable.AppendTokenIds | src/block_manager/block_table.cpp:222-248 | runs exactly the allocator's operations for the new blocks and the chunks, and fails where they fail; the mirror of the ids follows |
| HashlessTables.GrowExact | src/block_manager/hashless_block_allocator.cpp:32-52 | a run of allocations and appends succeeds exactly if the free ids cover its new blocks and its copies, of which the last sharer of an id needs none |
| HashlessTables.AppendGroup | src/block_manager/self_attn_block_manager.cpp:161-189 | a group of sequences is served completely, and every table holds its sequence, exactly if the free ids cover all new blocks and all copies of shared blocks written; other lists stay |
| HashlessTables.EstimateExact | src/block_manager/self_attn_block_manager.cpp:161-177 | what CanAppendSlot agrees to succeeds if the ids also cover the copies, and without spare blocks only then |
| HashlessTables.RoundReads | src/block_manager/self_attn_block_manager.cpp:179-189 | a round of appending and the device pass behind it: read through its ids, every table shows its sequence, whoever shares its blocks |
| HashlessTables.AllocateTable | src/block_manager/hashless_block_allocator.cpp:66-87 | a new table holds the tokens, at exactly one id per block, and fails exactly for lack of them |
| HashlessTables.ForkTable | src/block_manager/block_table.cpp:265-284 | forking needs no id and cannot fail: the copies have ids and tokens of their sources, and both tables hold the list |
| HashlessTables.FreeTable | src/block_manager/block_table.cpp:286-297 | freeing cannot fail, removes the table's objects, and leaves all others' blocks |
| HashlessTables.FreeTableKeeps | src/block_manager/hashless_block_allocator.cpp:89-103 | where only settled blocks are shared, freeing a table loses nothing of anybody else's |
| HashlessSwap.SwapCorrect | src/block_manager/hashless_block_allocator.cpp:173-200 | a swap is refused exactly if a block is elsewhere, and else succeeds exactly given an id per block: objects, order and tokens stay, the new ids are the next free ones of the other device in order, the pairs map by position, nobody else is touched |
| HashlessSwap.SwapCarries | src/block_manager/cpu_npu_block_allocator.cpp:184-198 | carrying the pairs over puts every computed block where its new id leads, and overwrites nobody else's memory |
| HashlessSwap.SwapOutAndIn | src/block_manager/self_attn_block_manager.cpp:473-518 | out and in again: the table holds and shows the same tokens, and the second mapping starts where the first ended |
| BlockTables.AllocateBlock | src/block_manager/block_table.cpp:373-383 | a full chunk whose hash is cached fails in no state and joins the cached id at no cost; any other fails exactly without ids |
| BlockTables.BlockTable.Allocate | src/block_manager/block_table.cpp:70-79 | the table holds exactly the tokens under the extra hash; on an unallocated table it fails exactly if the ids left do not cover the blocks whose content nobody uses; these take one each; blocks in use, and cached ones as long as the free ids last, end on the ids they were cached under |
| BlockTables.BlockTable.ChunkTokensForAllocate | src/block_manager/block_table.cpp:23-34 | cuts the list at the block boundaries, nothing lost |
| BlockTables.BlockTable.ChunkTokensForAppend | src/block_manager/block_table.cpp:467-480 | cuts the list at the boundaries that follow the filled slots |
| BlockTables.BlockTable.EnsureEnoughSlots | src/block_manager/block_table.cpp:320-344 | adds exactly the missing blocks, all empty and writable, at exactly one id each; fails only for lack of ids |
| BlockTables.BlockTable.AppendTokenIds | src/block_manager/block_table.cpp:222-248 | the table holds the longer list, ids stay mirrored, other tables keep theirs; every block that cannot be written in place costs an id and a copy; if that is at most the first one written, it succeeds exactly given ids for the new blocks and that copy |
| BlockTables.BlockTable.Fork | src/block_manager/block_table.cpp:265-284 | a second table with the same tokens and ids, at no id; all other objects keep their blocks, alone if they were |
| BlockTables.BlockTable.Over | src/block_manager/block_table.cpp:48-68 | a table over existing blocks mirrors their ids and counts their tokens |
| BlockTables.BlockTable.Free | src/block_manager/block_table.cpp:286-297 | gives up every block, front to back, as a run of the allocator's Free; leaves an empty table and all others as they were |
| BlockTables.BlockTable.ReplaceTrailingPlaceHolder | src/block_manager/block_table.cpp:488-536 | replaces exactly the chosen slice, and refuses, changing nothing, exactly if the slice is not where the placeholders begin |
| BlockTables.BlockTable.GetNumTokenIds | src/block_manager/block_table.cpp:433-441 | the number of tokens of the list |
| BlockTables.BlockTable.WalkedHash | src/block_manager/prefix_cache_block.cpp:81-111 | hashing a block of a table by walking back over its blocks, at any time, gives the hash the allocator files it under |
| BlockTableSteps.TableReads | src/block_manager/block_table.cpp:70-79 | the blocks' contents, concatenated, are the tokens; full blocks, at most one partial, then empty ones |
| BlockTableSteps.TableReadsThrough | src/block_manager/block_table.cpp:222-248 | read through its ids, a table shows its own tokens behind its own earlier blocks |
| BlockTableSteps.OthersKept | src/block_manager/block_table.cpp:265-284 | operations on other objects leave a table's list and its writable blocks alone |
| BlockTableSpec.ForkedTabled | src/block_manager/block_table.cpp:275-283 | after a fork both tables hold the list, on equal ids |
| BlockTableSpec.AppendedTabled | src/block_manager/block_table.cpp:236-245 | putting the next tokens into their block makes the table hold the longer list |
| BlockTableSpec.ReplacedTabled | src/block_manager/block_table.cpp:513-535 | replacing the first placeholder changes exactly that position |
| BlockTableSpec.PrefixReady | src/block_manager/prefix_cache_block.cpp:90-97 | when a block gets its first known token, all before it are complete |
| Chunking.RelatedBound | src/block_manager/block_table.cpp:253-263 | the estimate is at least what EnsureEnoughSlots allocates, and exact without spare blocks |
| Chunking.NewBlocksLeast | src/block_manager/block_table.cpp:320-344 | the blocks added are the least number that makes the tokens fit |
| AppendAdmission.CanAppendSlot | src/block_manager/self_attn_block_manager.cpp:161-177 | agrees exactly if the ids cover the estimates of all sequences of the group |
| AppendAdmission.AppendSlot | src/block_manager/self_attn_block_manager.cpp:179-189 | given ids for the new blocks and for every shared block written, the table holds the whole sequence; without shared spare blocks it succeeds exactly given ids for the new blocks and the copy of a shared tail, and hands over the recorded copies and that one |
| AppendAdmission.AppendGroup | src/block_manager/self_attn_block_manager.cpp:161-189 | if the ids cover CanAppendSlot's estimate and the copies of shared tails, every AppendSlot of the group succeeds and every table holds its sequence; without spare blocks, and if no block gets hashed, only then; without shared tails the estimate is enough; all recorded copies are handed over in turn, each from a tail's old id to its new one |
| AppendAdmission.SharedBlockDefeatsEstimate | src/block_manager/block_table.cpp:253-263 | with a shared tail the estimate can be met and the append still fail: a concrete run |
| RankPlacement.AllocateSmallRankFirst | src/block_manager/block_table.cpp:388-431 | with prefix caching: every chunk in order on its rank, chained over all ranks; fails exactly if some rank's ids do not cover the chunks of its part whose content nobody uses there; on every rank blocks in use, and cached ones as long as the free ids last, end on the ids they were cached under |
| RankAppend.RankTable.constructor | src/block_manager/block_table.cpp:82-105 | the blocks of a placed prompt, sorted by rank: every rank holds its part, chained as the whole prompt is, and the last block can take tokens |
| RankAppend.RankTable.AppendNewTokens | src/block_manager/block_table.cpp:127-155 | without lookahead the last token goes to the current rank while it has room, else to the next one, into a new block behind that rank's own last block if need be; fails exactly if that takes an id which the rank does not have; no other block on any rank is touched |
| RankAppend.RankTable.CanAppendNewTokens | src/block_manager/block_table.cpp:107-125 | asks the rank that takes the next token for the least blocks that hold all the tokens, and one to spare: whenever it agrees the append succeeds, and for a single token it asks for exactly one id more than the append takes |
| RankAppend.AppendToSpRank | src/block_manager/block_table.cpp:197-219 | a token into a rank's last block needs no id, cannot fail and touches no other block |
| RankDecode.FiledRight | src/block_manager/block_table.cpp:142-151 | whatever the prompt and the tokens decoded so far, the next block that decoding adds is filed behind exactly the tokens it is computed behind if and only if there is one rank |
| RankDecode.RoundAdds | src/block_manager/block_table.cpp:134-155 | over full ranks a round of decoding gives every rank one block in turn, each behind its rank's last |
| RankDecode.DecodedLikePrompt | src/block_manager/block_table.cpp:388-427 | after a prompt of whole rounds and a round of decoding, the new block on the last rank has the chain of the prompt that leaves out the other ranks' new tokens, whose last block belongs to the same rank |
| RankMislead.PromptTakes | src/block_manager/prefix_cache_block_allocator.cpp:74-96 | under several ranks too, a full block of a prompt ends on the id of whoever holds its chain on its rank |
| RankMislead.LastHeld | src/block_manager/block_table.cpp:197-219 | a rank's last block is live in that rank's allocator, under its own id and with the chain the table shows |
| RankMislead.PromptMisled | src/block_manager/block_table.cpp:142-151 | for every prompt of whole rounds, decoded on by a round: while the block with the round's last tokens is held, the prompt without the rest of the round ends on its id |
| RankPlacement.SharesEven | src/block_manager/block_table.cpp:416-427 | the ranks' shares differ by at most one, and the last rank has the larger one once blocks go round |
| RankPlacement.ShareFits | src/block_manager/cpu_npu_block_allocator.cpp:125-140 | enough ids by the conservative count are enough for every rank's share |
| RankPlacement.RoundRobin | src/block_manager/block_table.cpp:423-427 | dealing in turn gives every rank the full rounds and the first ranks one more |
| RankAdmission.CanAllocate | src/block_manager/self_attn_block_manager.cpp:95-115 | the three answers by threshold and conservative count |
| RankAdmission.GetNumFreeBlock | src/block_manager/cpu_npu_block_allocator.cpp:125-140 | whatever the allocators of the ranks answer, the smallest answer times the number of ranks |
| RankAdmission.RequiredMeaning | src/block_manager/self_attn_block_manager.cpp:95-108 | the blocks asked for are the least that hold the request, and one to spare under several ranks |
| RankAdmission.OkLeavesSpare | src/block_manager/self_attn_block_manager.cpp:95-115 | under several ranks OK leaves some rank an id beyond its share |
| RankAdmission.OkIsEnough | src/block_manager/self_attn_block_manager.cpp:111-113 | OK means every rank has ids for its share |
| RankAdmission.AdmitAndAllocate | src/block_manager/self_attn_block_manager.cpp:95-157 | whenever CanAllocate says OK the placement succeeds on every rank |
| HashlessRanks.AllocateSmallRankFirst | src/block_manager/block_table.cpp:388-431 | the same placement without prefix caching: every chunk in order on its rank, at exactly its share of ids, and it fails exactly if a rank has less |
| HashlessRanks.AdmitAndAllocate | src/block_manager/self_attn_block_manager.cpp:95-157 | without prefix caching too, whenever CanAllocate says OK the placement succeeds on every rank |
| RankAdmission.OkReachable | src/block_manager/self_attn_block_manager.cpp:95-115 | with or without prefix caching, some state answers OK exactly if the unreserved ids of all ranks cover the request |
| RankAdmission.NeverIsFinal | src/block_manager/self_attn_block_manager.cpp:109-110 | NEVER means that no state could answer OK |
| RankAdmission.NeverIsExact | src/block_manager/self_attn_block_manager.cpp:109-114 | every hopeless request is told NEVER exactly for one rank or without reserve |
| RankAdmission.AvailableBound | src/block_manager/prefix_cache_block_allocator.cpp:350-352 | no state offers more ids than the allocator has |
| ComputedPrefix.LevelComputedBlockNum | src/block_manager/self_attn_block_manager.cpp:334-346 | the levelled counts are exactly those of the longest contiguous prefix in turn |
| ComputedPrefix.PrefixOfTable | src/block_manager/self_attn_block_manager.cpp:313-347 | that is the table's longest computed prefix, unless its last block is computed but out of turn |
| ComputedPrefix.FullTable | src/block_manager/self_attn_block_manager.cpp:313-347 | of a table computed in full, everything is counted, or everything but a last block out of turn |
| ComputedPrefix.LastBlockOutOfTurn | src/block_manager/self_attn_block_manager.cpp:313-347 | three computed blocks over two ranks count as two |
| ComputedPrefix.AskKeys | src/block_manager/self_attn_block_manager.cpp:404-421 | the k-th key asked for is that of the k-th block behind the local prefix, up to the last in turn |
| ComputedPrefix.AskedInOrder | src/block_manager/self_attn_block_manager.cpp:404-421 | over hashes dealt as the blocks are placed, the keys are the sequence's own, in order, each with the rank its block is on |
| ComputedPrefix.RemoteComputedBlockNum | src/block_manager/self_attn_block_manager.cpp:396-434 | whatever the pool answers, the result is the per-rank count of the prefix longer by the leading hits |
| ComputedPrefix.DealtSum | src/block_manager/self_attn_block_manager.cpp:424-427 | the per-rank counts add up to the prefix |
| PrefixHashing.ComputeHashValueForSeq | src/block_manager/block_tracker.cpp:74-86 | the fold over predecessor hash, tokens and extra hash |
| PrefixHashing.HashesAgree | src/block_manager/prefix_cache_block.cpp:81-111 | folding over a sequence's chunks and hashing its table's chain give the same hashes |
| PrefixHashing.GetCachedTokensNum | src/block_manager/block_tracker.cpp:117-162 | block size times the leading chunks that the cache state reports as found |
| PrefixHashing.CountsAgree | src/block_manager/block_tracker.cpp:117-162 | it equals block size times the blocks found over the table's hashes, which are all its full blocks, on their ids, when nothing is left to mark |
| PrefixHashing.GetCachedBlocks | src/block_manager/block_tracker.cpp:105-113 | the blocks found over a live table: when nothing is left to mark, exactly its complete blocks, on their ids |
| PrefixHashing.TableFound | src/block_manager/prefix_cache_block_allocator.cpp:404-414 | once everything put in is marked, a live table's full, placeholder-free blocks are found, and only these |
| PrefixHashing.FreedTableFound | src/block_manager/block_table.cpp:286-297 | after the table is freed they are found as before |
| PrefixHashing.CollisionFreeExists | src/block_manager/prefix_cache_block.cpp:99-108 | hashes of unbounded size, combined as the program combines its 64-bit ones, can meet the assumption |
| LazyHash.CachingBlock.PrefixHash | src/block_manager/prefix_cache_block.cpp:81-111 | a set memo is believed, else the hash of the chain as it is now is computed and kept |
| LazyHash.FreedHashes | src/block_manager/block_table.cpp:286-297 | freeing front to back looks each block up under its memo, or under a hash over reset predecessors |
| LazyHash.LazyHashRight | src/block_manager/prefix_cache_block.cpp:31-36 | that recomputed hash is the block's own exactly if no predecessor had an extra hash |
| LazyHash.LateFreeFails | src/block_manager/prefix_cache_block_allocator.cpp:225-251 | freeing under such a hash ends in the allocator's own error exactly for the last holder behind a block with an extra hash, and otherwise is an ordinary free |
| LazyHash.LateFreeReached | src/block_manager/prefix_cache_block_allocator.cpp:181-251 | allocated with an extra hash, forked and freed, two copies freed front to back end there: a run of allocator operations |
| Swapping.SwapOut | src/block_manager/prefix_cache_block_allocator.cpp:369-373 | all blocks give up their ids, front to back, as a run of the allocator's Free; everything else stays |
| Swapping.SwapIn | src/block_manager/prefix_cache_block_allocator.cpp:375-389 | every block gets an id for its own tokens; fails exactly if the ids left do not cover the blocks whose content nobody uses; blocks in use there, and cached ones as long as the free ids last, arrive where they are cached |
| Swapping.Swap | src/block_manager/cpu_npu_block_allocator.cpp:157-199 | objects, order and tokens stay, each id is one of the other device, the pairs map old to new by position, both invariants hold, other tables are untouched; it refuses exactly blocks of another device; carrying the pairs over makes any right memory of the one device a right memory of the other |
| Swapping.SwapCarries | src/block_manager/cpu_npu_block_allocator.cpp:157-199 | carried over, the pairs put the content of every block that came where its new id leads, and overwrite nothing that anybody else reads, without computing anything again |
| Swapping.SwapOutAndIn | src/block_manager/self_attn_block_manager.cpp:473-518 | out and in again: the same tokens on the NPU, the second mapping starting where the first ended, and with both mappings carried over its memory is right again |
| DummyQuotaProofs.RanksAgree | src/engine/dummy_quota_manager.cpp:144-181 | in every timely run all ranks that have decided take the same branch, ranks at their guards have equal sums of quota and queue, less a batch pushed but not yet subtracted, and every round has one kind |
| DummyQuotaProofs.GuardExact | src/engine/dummy_quota_manager.cpp:153-161 | the guard tells whether unmatched batches remain exactly outside the dangerous window |
| DummyQuotaProofs.TornGuardExact | src/engine/dummy_quota_manager.cpp:161 | with any steps of a timely run between its three reads, the guard is right exactly if the last read is outside the window and the last quota was not subtracted since the first |
| DummyQuotaProofs.TornGuardReached | src/engine/dummy_quota_manager.cpp:56-63 | for any number of ranks and any quota a run in which the guard tears: rank 0 would go to the other all-gather than the rest |
| DummyQuotaProofs.StepOk | src/engine/dummy_quota_manager.cpp:36-63 | every step keeps quota bounds, queue contents and the common sum |
| DummyQuotaProofs.RunOk | src/engine/dummy_quota_manager.cpp:36-181 | so does every run |
| DummyQuotaProofs.QuotaRestored | src/engine/dummy_quota_manager.cpp:161-170 | in every timely run, after a round with a real batch that did not downgrade, a rank that contributed the largest quota and has not subtracted since holds the full quota |
| DummyQuotaProofs.GainsEqual | src/engine/dummy_quota_manager.cpp:161-179 | all ranks gain the same: what the largest quota lacks of the full one with a real batch, nothing without |
| DummyQuotaProofs.WakeupRestores | src/engine/dummy_quota_manager.cpp:171-179 | after a wakeup round with a real request every rank's quota is the full one |
| DummyQuotaProofs.RoundShowsSender | src/engine/dummy_quota_manager.cpp:71-76 | a round shows every rank's quota, queue length, kind and flag as they were when it entered |
| DummyQuotaProofs.LongQueueStopsAll | src/engine/dummy_quota_manager.cpp:100-118 | too long a queue on one rank stops every rank after the round, and no request waits on a stopped rank |
| DummyQuotaProofs.WakeupsSpentOnce | src/engine/dummy_quota_manager.cpp:134-142 | a rank brings a request into no more wakeup rounds than it called Wakeup |
| DummyQuotaProofs.BatchesAsAsked | src/engine/dummy_quota_manager.cpp:36-63 | every granted call pushes one batch of the kind asked for, and nothing else does |
| DummyQuotaProofs.DowngradeUnanimous | src/engine/dummy_quota_manager.cpp:100-118 | if one rank downgrades all do, and only because a queue was overlong |
| DummyQuota.ScanGathered | src/engine/dummy_quota_manager.cpp:100-118 | the loop computes the scan of the gathered vector |
| DummyQuota.ScanMeaning | src/engine/dummy_quota_manager.cpp:100-118 | it downgrades exactly on mixed kinds or an overlong queue, else yields the conjunction and the maximum |
| DummyQuotaProofs.RunConserves | src/engine/dummy_quota_manager.cpp:129-132 | no batch is lost, repeated or reordered between acquiring and gathering |
| DummyQuotaProofs.BatchesMatched | src/engine/dummy_quota_manager.cpp:129-132 | the m-th batch of every rank is gathered in the same round |
| DummyQuotaProofs.PullUnblocks | src/engine/dummy_quota_manager.cpp:129-132 | a waiting pull can always be served by that rank's scheduler alone |
| DummyQuotaProofs.RoundsGoOn | src/engine/dummy_quota_manager.cpp:144-181 | wherever a timely run has led, short of the downgrade, some timely continuation completes another round |
| DummyQuotaProofs.DummiesDrain | src/engine/dummy_quota_manager.cpp:161-179 | with only dummies the common sum falls by one a round, to 0 |
| DummyQuotaProofs.NoDummyAtZero | src/engine/dummy_quota_manager.cpp:56-62 | at sum 0 no dummy can be acquired |
| DummyQuotaProofs.WaitBounded | src/engine/dummy_quota_manager.cpp:41-54 | a signalled real request waits at most the common sum plus two rounds |
| DummyQuotaProofs.StuckForever | src/engine/dummy_quota_manager.cpp:129-132 | a rank pulling without batch and quota stays there, and no all-gather completes again |
| DummyQuotaProofs.StaleGuardEndsRounds | src/engine/dummy_quota_manager.cpp:153-161 | one guard evaluated in the window is enough: whatever the ranks and the quota, no all-gather completes after it |
| DummyQuotaProofs.TimelinessExact | src/engine/dummy_quota_manager.cpp:153-161 | behind a guard another round can complete exactly if it is outside the window |
| DummyQuotaProofs.StaleGuardDeadlocks | src/engine/dummy_quota_manager.cpp:52-59 | a run of two ranks in which the window leads there |
| WarmupSplit.GetRequestLengthsByDp | mindie_llm/text_generator/generator.py:1369-1431 | if a batch of requests at the limit fits, exactly that many of exactly the limit, or, under context parallelism, of the aligned limit but for the last; otherwise all tokens, spread evenly: the quotient or one more, or the aligned quotient but for the last; a prefix-cache warm-up changes the first length only, by a block, up to the limit |
| WarmupSplit.Distribute | mindie_llm/text_generator/generator.py:1403-1427 | the split that uses all tokens exactly and evenly |
| WarmupSplit.HandOut | mindie_llm/text_generator/generator.py:1415-1427 | the round-robin loop hands out all that remains and never comes round twice |

## Left out

- ResetPrefixCache: modelled as a step on values; the allocator's evictor object is not exchanged in place, and no run contains the step, since what it leaves is in order only if nothing was cached.
- SelfAttnBlockManager::Fork: it copies block pointers without raising counts; the table's own fork is modelled.
- LRUEvictor::Update: it changes a candidate's time without a heap entry; its only caller throws next.
- RankAppend.RankTable.AppendNewTokens: positive lookahead under several ranks is not modelled, on one rank it is; nor is the flat id mirror for more than one rank, which is written with a per-rank index.
- RankAppend.RankTable: its tokens are no placeholders, and its open block is nobody else's; sequences are not forked under several ranks here.
- The pool of block objects: a new object stands for an acquired one; LIFO reuse and doubling are not modelled.
- State after a thrown exception: only its occurrence and its cause are.
- AllocateImmutableBlocks: its loop is the table's loop over full chunks, one block at a time; without prefix caching all ids are taken before the first object, which differs only when ids run out.
- HashlessTables.AppendGroup: over the allocator without prefix caching, groups of sequences, forking and freeing a whole table, and swapping are runs of allocator operations on values; the allocator and appending to a table are modelled in place.
- PrefixCacheAllocator.PrefixCacheBlockAllocator.AppendTokenIds: the prefix chain of an object is a value read from prevBlock_ at the append, not a walk at every hash; for the blocks of a table the walk gives the same (WalkedHash), and LazyHash says where it differs once blocks have been freed.
- LazyHash: the memo is modelled for the blocks of one table and connected to the allocator by the hash it yields; runs of the allocator themselves hash by value.
- A device pass that comes later, with prefix caching: there copies and writes are carried out when they are recorded; when it matters is modelled without prefix caching.
- AppendAdmission.AppendGroup: spare blocks, which only lookahead makes, are assumed unshared; and if a block gets hashed during the round the condition is sufficient only, since joining a cached block gives an id back, which a later sequence may use.
- GetCachedTokensNum over several ranks, the per-sequence memo of counts and chunked prefill: the counts are modelled for a first chunk on one rank.
- Several sequences in GetAllrankComputedBlockNum: the per-rank prefix lengths are inputs.
- Replacing a placeholder by a placeholder: callers pass real tokens.
- CanSwap, CanSwapIn, CanSwapOut: thin estimates on top of the same counts.
- Exceptions and timeouts of the all-gather, thread start and stop, sleeping and logging.
- Hit-rate statistics, logging, profiling, and the memory pool itself, whose answer is arbitrary.
- RequestSingleBlockManager, LwdSelfAttnBlockManager and LoraManager: thin maps or delegation.
