# The KV cache, the scheduler and the engine loop of miniserve

miniserve serves language models with continuous batching. Its correctness rests on bookkeeping: a pool
of reference-counted KV blocks, per-request block tables, a radix tree of cached prefixes, a scheduler
that admits and preempts requests against a block budget, an engine loop that launches step `t + 1`
before it reads step `t` back, speculative rounds on top, and a server thread that hands the tokens
out. This project models all of it and proves that the bookkeeping never changes what a request
outputs, never hands out a block twice, and never gets stuck, except in one case that is named below.

The model is layered as the program is.

- **Memory.** `BlockAllocator.dfy`, `BlockTable.dfy`, `TreeShape.dfy`, `EvictionOrder.dfy`,
  `RadixTree.dfy`, `KvState.dfy`, `NodeRefs.dfy` and `KvCache.dfy` are the block stack, the tables, the
  prefix tree with its eviction index, and the manager over them. The classes are proved against
  abstract states: the tree denotes a map from prefixes to blocks, and the manager a value
  `Kv(numBlocks, cached, held)` of which free blocks, reference counts, locks and the scheduler's
  budget are functions.
- **Device.** `Device.dfy`: the KV entry of a position is the token with all entries before it, kept
  symbolic, and the next token is an arbitrary function of the entries, the request's seed and the
  position. So every result holds for any model and any sampling rule that depends on nothing else.
- **The state machine.** `Machine.dfy` takes the engine apart into twelve small steps that may come in
  any order; `MachineInv.dfy`, `MachineSteps.dfy` and `MachineTheorems.dfy` prove its invariant and what
  it means. Everything a policy, an overlapped loop or a speculating loop decides is nondeterministic
  there.
- **Scheduling.** `Scheduling.dfy` states the schedule as functions of the queues and the pool;
  `ScheduleSafe.dfy`, `ScheduleRoom.dfy`, `ScheduleOrder.dfy`, `Admission.dfy` and `Cornered.dfy` prove
  its promises, who is let in and who must go, and where the promises end; `Policies.dfy` holds the three policies; `Scheduler.dfy` is the class.
- **The engine.** `Inputs.dfy`, `Launching.dfy`, `ReadingBack.dfy`, `Passes.dfy`, `Stepping.dfy`,
  `Shaping.dfy`, `Progress.dfy` and `Engine.dfy`: launching with placeholders, reading back one step
  later, and termination. The class's ghost state is always a reachable state of the machine, so the
  theorems about runs are theorems about it.
- **Speculation.** `Verify.dfy`, `SpecRound.dfy`, `SpecGain.dfy`, `Draft.dfy`, `SpecShare.dfy` and
  `Spec.dfy`: what the draft proposes is given from outside and may be anything; a step's gains are a
  function of it.
- **The server.** `Server.dfy`: commands, publication of tokens, and the death of the engine thread.

## Findings

- **A lone request may not fit in the pool.** The scheduler's documentation promises "no deadlock"
  (miniserve/engine/scheduler.py:36-41), and its two assertions say that a single request always fits
  because `add` rejects larger ones (lines 286-287 and 311-312). With the prefix cache on this is false,
  and `CorneredRun.LoneReachable` gives the run: blocks of one token, six of them, and two requests with
  the prompt `[7, 8]`, the first wanting one token and the second four. Both prefill in one batch; the
  first one's blocks enter the tree, and the second locks that path beside its own copies. The first
  finishes. After two decode steps the second holds four blocks, the tree two that it locks, nothing is
  free or evictable, and it needs a fifth. Nothing was aborted or preempted. `ScheduleRoom.LoneExactly`
  gives the exact condition for every policy, with and without chunks: `schedule` fails its assertion if
  and only if nothing was admitted first and the earliest unspent running request needs more blocks than
  its own table and its locked path leave of the pool. What can be checked beforehand:
  `ScheduleRoom.NeverLone` proves that it never fails with the cache off, nor with it on if the pool is
  twice the peak of each request (`Roomy` and `FitsTwice` in the contract of `Engines.Engine.Generate`).
- **The length of the last block can be negative.** `last_block_len` is documented as `1..block_size`,
  or 0 for an empty table (miniserve/cache/block_table.py:34-35). A rewind keeps surplus blocks, and
  then the value is not positive: `BlockTables.RewindLeavesNegative` is an input with value -1, and
  `BlockTables.LastBlockLenRange` proves that the documented range is met exactly by tables with tokens
  and no surplus block. The packed layout still gives the token count back
  (`BlockTables.PackingInvertible`).
- **The draft does run ahead of the target.** The draft pool is said to suffice because the draft is never
  ahead of the target, at any instant (miniserve/spec/draft.py:7-14). Inside every round it is:
  `SpecShares.DraftLeads` proves that after the proposals each of its tables is `gamma` tokens longer
  than the target's, which reserves its room only afterwards. The conclusion holds all the same: the
  schedule counted the blocks of a whole round beforehand, and the draft stays within these shares
  (`SpecShares.RoundSharesOk`, `SpecShares.RoundWithin`).

## Model

| member | source | states |
|---|---|---|
| BlockPool.BlockAllocator.Allocate | miniserve/cache/block_allocator.py:48-57 | Pops exactly the top `n` blocks of the free stack, newest first, and gives each one holder; a negative count or too few free blocks is an error that changes nothing; the free stack stays exactly the zero-count blocks without repeats. |
| BlockPool.BlockAllocator.IncRef | miniserve/cache/block_allocator.py:59-67 | Succeeds if and only if every id is in range and in use; then each count grows by the number of times its block is mentioned; otherwise nothing changes. |
| BlockPool.BlockAllocator.Free | miniserve/cache/block_allocator.py:69-86 | Out-of-range ids are an index error, more drops than holders a value error, checked for the whole list before anything changes; otherwise each count falls by its mentions and the blocks that reach zero go on top of the stack, in order. |
| BlockPool.DropAllMeans | miniserve/cache/block_allocator.py:69-86 | Dropping a list of holders one by one, whenever it is droppable as a whole, keeps the stack equal to the zero-count blocks, only adds to it, and subtracts the multiplicity of each block from its count. |
| BlockPool.CoreAllocator.AllocateInto | minicore/src/block_allocator.cpp:21-34 | The C++ allocator appends the same blocks in the same order as the Python one, with the same errors and no change on an error. |
| BlockPool.CoreAllocator.Free | minicore/src/block_allocator.cpp:52-77 | The C++ release with its scratch counters gives the same result, the same error and the same stack order as the Python one, and leaves the counters cleared whether it succeeds or not. |
| BlockTables.BlockTable.AppendTokens | miniserve/cache/block_table.py:40-54 | All or nothing: takes exactly the missing blocks from the top of the stack, each with one holder and every other count as it was, or fails and changes nothing if they are not free. |
| BlockTables.BlockTable.TailSlots | miniserve/cache/block_table.py:77-83 | For `0 <= n <= num_tokens`, and only then, the slots of the last `n` positions in order. |
| BlockTables.BlockTable.Release | miniserve/cache/block_table.py:85-88 | Empties the table and takes one holder from each of its blocks and from no other. |
| BlockTables.SlotsDistinct | miniserve/cache/block_table.py:62-65 | Two positions of a table, whose blocks are distinct, never share a slot. |
| BlockTables.RewindThenAppend | miniserve/cache/block_table.py:67-75 | Appending as many tokens as were rewound needs no block: the same tokens land in the same slots. |
| BlockTables.LastBlockLenRange | miniserve/cache/block_table.py:33-38 | For a table with tokens the last block's length is in `1..block_size` if and only if the table has no surplus block, and not positive if and only if it has one. |
| BlockTables.RewindLeavesNegative | miniserve/cache/block_table.py:67-75 | An input for which that length is -1 after a rewind. |
| BlockTables.PackBlockTables | miniserve/cache/block_table.py:92-113 | Succeeds if and only if the padding count is not negative and the three arrays are large enough; then they start with the layout of the tables and the padding rows; otherwise they are untouched. |
| BlockTables.PackBlockTablesCore | minicore/src/packing.cpp:9-35 | The C++ loop with its running counters writes the same layout under the same condition. |
| BlockTables.StartsAt | miniserve/cache/block_table.py:109-112 | The `k`-th offset is the number of pages of the first `k` tables. |
| BlockTables.PackingInvertible | miniserve/cache/block_table.py:92-113 | For any tables the offsets and page ids give back each table's blocks, and `(pages - 1) * block_size + last` its token count whenever it is positive, surplus blocks included. |
| RadixTrees.RadixTree.Split | miniserve/cache/radix_tree.py:157-165 | Cuts an edge at any inner block, with a new node above; the node that was there keeps its handle and its prefix. |
| RadixTrees.RadixTree.Walk | miniserve/cache/radix_tree.py:128-146 | Ends at a node whose prefix is the longest cached prefix of the key, splitting an edge if needed; what is cached, where, and how often it is locked is unchanged, handles survive, and exactly the nodes on the path carry the new time. |
| RadixTrees.RadixTree.Match | miniserve/cache/radix_tree.py:76-83 | The longest cached prefix of the key with its blocks in order; the map of cached prefixes is unchanged, and exactly the nodes on its path carry the new time. |
| RadixTrees.RadixTree.PrefixLen | miniserve/cache/radix_tree.py:109-126 | The length of the longest cached prefix, found by a walk that changes nothing. |
| RadixTrees.RadixTree.Insert | miniserve/cache/radix_tree.py:172-194 | Adds exactly the prefixes of the key that were not cached, in the caller's blocks, each with one more holder and no lock, and keeps all others; exactly the nodes on the path of the key, the new leaf included, carry the new time; a wrong number of blocks is an error that changes nothing. |
| RadixTrees.RadixTree.Lock | miniserve/cache/radix_tree.py:196-201 | One more lock on exactly the prefixes of the handle's path; nothing but locks changes. |
| RadixTrees.RadixTree.Unlock | miniserve/cache/radix_tree.py:203-212 | Succeeds if and only if every prefix of the path is locked; then one lock less on exactly these, and nothing but locks changes. |
| RadixTrees.RadixTree.Evict | miniserve/cache/radix_tree.py:214-231 | Removes exactly the nodes that repeatedly taking the unlocked leaf least recently used (ties by creation) until `k` blocks are free would remove, in that order, and takes the tree's reference from their blocks. |
| RadixTrees.RadixTree.EvictIndexed | minicore/src/radix_tree.cpp:102-116 | Eviction from the C++ ordered index: the index equals the keys of the unlocked leaves throughout, and the victims and their order are those of the full walk. |
| RadixTrees.RadixTree.EvictByWalk | miniserve/cache/radix_tree.py:214-231 | Eviction by a heap filled from a walk of the whole tree: the same victims in the same order. |
| EvictionOrder.EvictionSuffices | miniserve/cache/radix_tree.py:214-231 | If no node is locked more often than its parent, `evict(k)` frees at least the smaller of `k` and the evictable blocks, and what the cache loses is what is freed. |
| EvictionOrder.EvictionSpares | miniserve/cache/radix_tree.py:214-231 | What survives an eviction is unchanged, every locked node survives, and the cached prefixes stay prefix-closed. |
| EvictionOrder.EvictionIsLru | miniserve/cache/radix_tree.py:24-30 | Over the whole tree no unlocked node that survives was used before one that was evicted, given that locks and times do not grow towards the leaves. |
| EvictionOrder.EvictionStops | miniserve/cache/radix_tree.py:214-231 | No victim too many: without the last one fewer than the wanted blocks would be free. |
| NodeRefs.CutEvenly | miniserve/cache/radix_tree.py:157-165 | If every table holds all of a node's blocks or none, this is still so after any splits that handles survive. |
| NodeRefs.TakenEvenly | miniserve/cache/kv_cache.py:54-65 | It is still so after a new table took the blocks of a matched path, because the path ends where a node ends. |
| NodeRefs.CommittedEvenly | miniserve/cache/kv_cache.py:95-105 | It is still so after a commit: edges are only cut, and what is new in the tree is in its committer's table and in no other. |
| NodeRefs.NodeRefsEqual | miniserve/cache/radix_tree.py:248-264 | Then all blocks of a node have the same reference count. |
| KvState.UnlockedMeansTreeOnly | miniserve/cache/radix_tree.py:15-23 | A tree block whose prefix nobody locks has reference count one. |
| KvState.CommittedOk | miniserve/cache/kv_cache.py:95-105 | A commit of a key that extends the locked path keeps the pool's invariant: tree blocks distinct and prefix-closed, tables without repeats, no sharing outside the tree. |
| KvState.AcquireThenDrop | miniserve/cache/kv_cache.py:88-93 | Abandoning what was just acquired restores the pool exactly. |
| KvState.EvictionFreesBlocks | miniserve/cache/kv_cache.py:117-123 | An eviction frees as many blocks as the cache loses, so what is available stays the same. |
| KvState.IdleConservation | miniserve/cache/kv_cache.py:125-132 | While no request holds KV, free and cached blocks add up to the pool, and all of it is available. |
| KvState.HeldConservation | miniserve/cache/block_allocator.py:98-103 | Without a prefix cache the available blocks and the blocks of the live tables add up to the pool. |
| KvCache.KVCacheManager.Acquire | miniserve/cache/kv_cache.py:54-65 | The new table starts with exactly the longest cached prefix of the key in whole blocks and locks its path, whose nodes alone carry the new time; reference counts stay the table holders plus the tree, locks stay the live users, and no block leaves the free stack. |
| KvCache.KVCacheManager.CachedPrefixLen | miniserve/cache/kv_cache.py:67-71 | The number of tokens an acquire would find now, changing nothing. |
| KvCache.KVCacheManager.Abandon | miniserve/cache/kv_cache.py:88-93 | The pool without the request's table and lock; all counts agree again, and of the tree only locks change. |
| KvCache.KVCacheManager.Commit | miniserve/cache/kv_cache.py:95-105 | The computed full blocks that were not cached enter the tree, the request's lock moves to cover all its full blocks, whose path carries the new time and nothing else does, and blocks that were cached under other ids stay its own duplicates. |
| KvCache.KVCacheManager.Release | miniserve/cache/kv_cache.py:107-115 | Commits the full blocks, which makes them the most recently used, and gives the table and the lock up. |
| KvCache.KVCacheManager.NumAvailable | miniserve/cache/kv_cache.py:50-52 | Free blocks plus the tree's counter of unlocked blocks is exactly the number that can be handed out. |
| KvCache.KVCacheManager.EvictShort | miniserve/cache/kv_cache.py:117-123 | Leaves exactly the survivors of an eviction of `k`, so at least `k` blocks or all evictable ones are freed and the last victim was needed; nothing locked or held is lost, nothing that survives unlocked was used before something lost, and the number available is unchanged. |
| KvCache.KVCacheManager.Reserve | miniserve/cache/kv_cache.py:117-123 | Succeeds if and only if `n` blocks were available, and then `n` blocks are free; evicts the shortfall and no more, least recently used first, and nothing if `n` blocks are free already. |
| KvCache.KVCacheManager.OneCountPerNode | miniserve/cache/radix_tree.py:248-264 | After every operation of the manager the blocks of a node share one reference count, and it is one if the node is unlocked. |
| Requests.TokenSliceIs | miniserve/engine/request.py:121-128 | A slice taken from prompt and output separately is that slice of the two joined. |
| MachineTheorems.StepRecords | miniserve/engine/request.py:38-50 | Every step keeps a request's job and moves its state along the transition table or not at all; the record of a request that left never changes. |
| Device.GreedyGenerate | miniserve/model/generate.py:13-43 | Decoding one request alone, one token at a time with a growing cache, yields the reference output `Solo` that the theorems speak of. |
| MachineTheorems.ScheduleIndependence | miniserve/engine/engine.py:137-204 | In every run of the machine, for any arrivals, policy, pool, chunking, overlap and cache, a request that finished has exactly the output it has when decoded alone, and an aborted one a beginning of it. |
| MachineTheorems.RunsAgree | miniserve/engine/engine.py:137-204 | Two runs of one model with any two configurations give a job that finishes in both the same output. |
| MachineTheorems.LiveOutput | miniserve/engine/request.py:130-133 | What was read back of a live request is a beginning of its solo output with no stop token in it and short of its limit, and its placeholders are exactly its trailing pending tokens. |
| MachineTheorems.KvContent | miniserve/cache/block_table.py:62-65 | In every reachable state slot `i` of a table holds the entry of token `i` after exactly the request's own tokens before it, for every computed position. |
| MachineTheorems.CacheContent | miniserve/cache/kv_cache.py:95-105 | Every tree block holds the entries of the tokens its prefix spells, and no placeholder is ever in the tree. |
| MachineTheorems.NoCopyOnWrite | miniserve/cache/block_table.py:7-9 | Every position still to be written lies in a block that this table alone holds and the tree does not. |
| ScheduleSafe.ScheduleGood | miniserve/engine/scheduler.py:156-303 | From any step boundary and under any policy, a schedule only takes steps of the machine, and a batch it returns is not empty, has rows of distinct running requests at the ends of their tables, and needs no more blocks than are available. |
| ScheduleRoom.AvailIsUnpinned | miniserve/engine/scheduler.py:20-22 | The blocks available are all but those in a table or under a locked prefix. |
| ScheduleRoom.FirstStays | miniserve/engine/scheduler.py:307-323 | Whatever the policy picks, after a preemption the earliest unspent running request is the same, still running, with the same record and the same blocks pinned. |
| ScheduleRoom.LoneExactly | miniserve/engine/scheduler.py:281-313 | The assertion of a lone request fails exactly in the states `Cornered` describes, whatever the policy, from any step boundary (without chunks: with no prefill part-way). |
| ScheduleRoom.NeverLone | miniserve/engine/scheduler.py:36-41 | It never fails with the prefix cache off, nor with it on if the pool is at least twice every request's peak. |
| CorneredRun.LoneReachable | miniserve/engine/scheduler.py:281-313 | Three steps of the first-come-first-served engine from two waiting requests lead to a state, free of aborts and preemptions, in which no policy can schedule, whatever the model samples. |
| ScheduleOrder.FirstKeepsRunning | miniserve/engine/scheduler.py:36-41 | Under any policy the earliest unspent running request is the same after a schedule and was not preempted. |
| ScheduleOrder.FcfsNeverOvertakes | miniserve/engine/scheduler.py:168-223 | Under first come first served, running followed by waiting, spent requests aside, is the same list before and after a schedule. |
| ScheduleOrder.StepBudget | miniserve/engine/scheduler.py:227-279 | With chunks every batch computes at most the chunk size in tokens, decodes included, at most that many unspent requests run, and every prefill but the last admitted reaches its end; given the same of the step before. |
| Admissions.AdmissionExactly | miniserve/engine/scheduler.py:168-201 | Without chunks exactly as many of the policy's order are let in as come before the first that waits for a read-back, meets the limit of running requests, is not the first and exceeds the token budget with those before it, or whose prefill and next token do not fit in the pool beside the others'. |
| Admissions.PrefillBudget | miniserve/engine/scheduler.py:168-201 | Without chunks a prefill batch has one row or computes at most `max_prefill_tokens` tokens. |
| Admissions.WholeSchedule | miniserve/engine/scheduler.py:156-166 | Without chunks: if anyone is let in the batch is the prefills of all who are, each whole and in the order of admission; otherwise room is made and the batch is one token of every decoding request that still runs. |
| Admissions.ChunkedSchedule | miniserve/engine/scheduler.py:227-279 | With chunks: room is made, every decoding request has its token, and the rest of the tokens goes to the prefills part-way and then to newcomers, each with all it lacks or what is left; no one is left out while there are tokens, but who does not fit and those behind. |
| Admissions.RoomExactly | miniserve/engine/scheduler.py:281-323 | Each preemption happens only while what runs needs more blocks than are available, and takes the newest request with nothing left to compute, or else the policy's choice among all but the earliest; afterwards what runs fits, and the victims wait in front, the last one first. |
| Admissions.OustedRecords | miniserve/engine/scheduler.py:315-323 | Victims wait with their tokens, without KV and with one preemption more; every other record is as it was. |
| Admissions.NeedExactly | miniserve/engine/scheduler.py:294-335 | What a running request is counted for is exact: so many blocks more, and no fewer, hold its next step's tokens or the rest of its prefill and one token. |
| Admissions.RunningBound | miniserve/engine/scheduler.py:168-279 | A schedule never brings the running requests above `max_running`. |
| Admissions.LookupExactly | miniserve/cache/kv_cache.py:54-65 | An admitted request's table starts with cached blocks of its own tokens, and no cached beginning of them that leaves a token to compute is longer. |
| Admissions.ReleaseCaches | miniserve/cache/kv_cache.py:107-115 | After a release the request holds nothing, and the cache has what it had, at the same blocks, and with a prefix cache exactly the whole computed blocks of the request besides. |
| Admissions.RetireCaches | miniserve/engine/engine.py:200-204 | Whoever finishes or is aborted leaves the queues with its last record, holds nothing, and its whole computed blocks stay in the prefix cache; nothing else of the cache or of the other requests changes. |
| Schedulers.Scheduler.Schedule | miniserve/engine/scheduler.py:156-166 | The class, with its deque, list and loops over the manager, computes the schedule of the specification: the same batch and queues, or the failed assertion; without chunks a prefill batch has one row or computes at most `max_prefill_tokens`. |
| Schedulers.Scheduler.Admit | miniserve/engine/scheduler.py:168-201 | Admission with its undone lookup is the specification's: exactly the first requests of the policy's order up to the first that is not `Welcome` are let in, and the pool is left as if the last lookup had not been. |
| Schedulers.Scheduler.MakeRoomForAll | miniserve/engine/scheduler.py:281-292 | Preempting until what runs fits is the specification's loop, victims in order. |
| Policies.NamedPolicyOk | miniserve/engine/policy.py:44-83 | Each of the three policies returns the waiting requests each once, and picks a victim from what it is offered. |
| Policies.SortSorted | miniserve/engine/policy.py:60-68 | The sort by a key is in ascending order. |
| Policies.SortStable | miniserve/engine/policy.py:60-68 | Requests with equal keys keep their order. |
| Policies.CacheAwareLongestFirst | miniserve/engine/policy.py:71-83 | With a prefix cache the cache-aware order tries the request with the longest cached prefix first, ties in arrival order; without one it is the arrival order. |
| Policies.ShortestJobsFirst | miniserve/engine/policy.py:54-64 | The order of shortest-job-first never has a request with more prefill and output left before one with less; ties keep arrival order. |
| Policies.PicksMean | miniserve/engine/policy.py:44-83 | The victim is the newest candidate, except under shortest-job-first: there it is the newest of those with the most work left. |
| Inputs.FillRows | miniserve/engine/model_runner.py:263-277 | With a flight that matches the requests the fill never errs, and every placeholder in the input is replaced by the token sampled for it, so the pass sees the request's own tokens. |
| Launching.LaunchFlight | miniserve/engine/engine.py:149-181 | After a launch each request has one placeholder per row of the two flights in the air: the older flight's first, the new one's last, each with its own token. |
| ReadingBack.AirEmpties | miniserve/engine/engine.py:183-198 | When a flight is read back, every request has a placeholder if and only if it has a sampled row in the other flight, never more than one. |
| Engines.Engine.Launch | miniserve/engine/engine.py:149-181 | For a batch of the schedule none of the launch's errors can occur: the fill succeeds, the starts agree, and the reservation finds its blocks; each row's tokens are computed, and its flight says which output slot gets which token. With a prefix cache the whole computed blocks of every prefill row are cached and locked by its request, so that later requests find them; the cache gains nothing else, loses nothing if enough blocks are free, and nothing that is locked. |
| Engines.Engine.Step | miniserve/engine/engine.py:137-147 | Fails exactly when `Cornered`; otherwise the scheduler's batch is launched, its prefills cached as `Launch` says, and the flight returned, whose tokens are put in place of their placeholders, is the one that was in flight before (with overlap) or the one just launched (without); requests without a row in it wait unchanged, all invariants hold again, and with work left the step made progress. |
| Engines.Engine.AddRequest | miniserve/engine/scheduler.py:143-154 | Rejects a submission exactly if it is empty, asks for nothing, or could not fit in the whole pool; an accepted one joins the end of the queue, and nothing else changes. |
| Engines.Engine.Abort | miniserve/engine/engine.py:126-131 | Ends the request wherever it is, with its late tokens dropped and its KV given up; an unknown id changes nothing. |
| Engines.Engine.Generate | miniserve/engine/engine.py:206-211 | Terminates; if it succeeds, every output is the solo output of its prompt; it succeeds if every prompt is admissible and, with the prefix cache on, needs at most half of the pool. |
| Progress.StepLess | miniserve/engine/scheduler.py:36-41 | A step that schedules a batch leaves fewer tokens to sample, or as many and less prefill to compute, under any of the policies, cache on or off; a step without a batch leaves no more. |
| Progress.SomethingRuns | miniserve/engine/scheduler.py:36-41 | With requests left and nothing in flight, a schedule that does not fail returns a batch. |
| Verification.CheckedAccept | miniserve/spec/verify.py:21-32 | Proposals and choices must have fitting lengths, otherwise a value error; then the result is the one number of leading proposals that agree with the choices and are followed by a disagreement or nothing. |
| MachineSteps.RoundIsStream | miniserve/spec/verify.py:1-18 | Any beginning of a round's accepted tokens continues the one-token-at-a-time stream, whatever was proposed. |
| MachineSteps.KeptStream | miniserve/spec/engine.py:348-370 | Settling a round leaves the output a beginning of that stream, cut at its first stop token or limit, and the rejected positions taken back. |
| SpecGains.VerdictGain | miniserve/spec/engine.py:348-370 | What a verdict keeps is the coming part of the target's own stream as far as the proposals foresaw it, and one token more, up to the first stop token or the limit. |
| SpecRounds.WideFits | miniserve/spec/engine.py:286-331 | The blocks for a whole round of every request in a decode batch were counted by the schedule, so the verify pass finds them. |
| SpecRounds.RoundSettles | miniserve/spec/engine.py:286-331 | Settling all rows of a round ends at a step boundary with every request carried along and strictly fewer tokens left to sample. |
| SpecShares.RoundSharesOk | miniserve/spec/draft.py:7-14 | For a round each request's share of the draft pool is what the target holds and reserves for it; the shares add up to no more than the pool, and no draft table exceeds its share. |
| SpecShares.DraftLeads | miniserve/spec/engine.py:302-312 | After the proposals of a round, and before the target reserves, the draft's table of each request is exactly `gamma` tokens longer than the target's. |
| SpecShares.RoundWithin | miniserve/spec/draft.py:7-14 | Even then feeding and proposing stays within the shares of the round. |
| Drafts.DraftRunner.Prefill | miniserve/spec/draft.py:139-164 | Within the shares the passes that pack several prompts never run out of blocks, each table ends with exactly its item's tokens, no pass has more tokens than the limit, and every pass but the last is full. |
| Drafts.DraftRunner.Propose | miniserve/spec/draft.py:166-186 | Within the shares a round of proposals never runs out of blocks and leaves each draft table `gamma - 1` tokens past the row it was fed: one pass over the rows, then `gamma - 1` of one token each; each request has its `gamma` guesses. |
| SpecEngines.SpecEngine.FirstStep | miniserve/spec/engine.py:333-346 | The rows fed to the draft bring every draft table to the end of its request's sequence; all tables are rewound to two tokens before it if the graph can take that width and each misses at most two, and otherwise none is. |
| SpecEngines.SpecEngine.CheckRound | miniserve/spec/engine.py:286-331 | Reserving room for and verifying a round cannot fail; every row of the batch has the verdict of its own proposals and no other request changed, in a reachable state, where verdicts are the target's own choices. |
| SpecEngines.SpecEngine.Step | miniserve/spec/engine.py:250-264 | Never fails; forms the scheduler's batch, keeps every invariant of target and draft, and with work left leaves strictly less of it. If it speculates and the batch only decodes, each row gains the longest part of the stream that the proposals foresaw and one token more, cut at the first stop token or the limit; in any other batch each completed row gains the next token; no other request gains any, and whoever ended has left. The draft covers afterwards exactly what a round or a prefill leaves it. |
| SpecEngines.SpecEngine.Generate | miniserve/spec/engine.py:250-264 | Terminates, succeeds if and only if every prompt is admissible, and then every output is the solo output, for any draft, any `gamma` and any interleaving with preemption. |
| Servers.AsyncEngine.Submit | miniserve/server/async_engine.py:164-173 | Refuses exactly after the engine thread's death; otherwise a new stream's add is queued last. |
| Servers.AsyncEngine.Abort | miniserve/server/async_engine.py:175-177 | Queues an abort of a stream that was handed out, also after the death. |
| Servers.AsyncEngine.HandleNext | miniserve/server/async_engine.py:269-296 | Handles the oldest command: an add queues the request last and makes its stream live, or ends it; an abort gives the stream its end whatever its state was and takes the engine's request out of the queues, its KV given up and its record aborted; a call is answered. What the command does not name is unchanged, and every request of the engine belongs to a live stream or was there before. |
| Servers.AsyncEngine.SendRow | miniserve/server/async_engine.py:240-252 | Hands a row's stream exactly the tokens read back and not handed over, and its end with the right reason if the request has finished. |
| Servers.AsyncEngine.StepOnce | miniserve/server/async_engine.py:236-261 | A step is the engine's, and its publication hands every stream exactly what was read back; the engine thread dies exactly if there is work and the scheduler's assertion fails, and then only failures are sent; without work nothing changes. |
| Servers.AsyncEngine.Die | miniserve/server/async_engine.py:256-319 | Whenever and why ever the thread dies, afterwards every accepted stream has its end, by a failure if it had none, and every accepted call its answer. |
| Servers.ExactlyOnce | miniserve/server/async_engine.py:164-319 | Over all interleavings a stream's updates spell a beginning of its solo output, all of it if it ended with stop or length, nothing follows its last update, and after the death it has one and every call is answered. |

## Left out

- Model arithmetic, attention kernels, fused operators, weights, CUDA Graphs, FlashInfer planning, streams, events and pinned buffers: a pass writes the planned slots and reads each table's history, and launches take effect in the order of their submission.
- Sampling numerics: the next token is an arbitrary function of the entries, the seed and the position.
- The radix tree's nodes are entries of a map by uid, not heap objects; parent and child links, locks and times are updated in that map in place of the objects.
- Token sequences are cut into whole blocks before they reach the tree; the tree compares blocks, as the child keys of the source do.
- Live requests and their block tables are records keyed by request id in the scheduler's map instead of shared objects, so aliasing between a queue and a batch is not modelled; every update goes through the map. `BlockTables.BlockTable` models the table object itself.
- A request joins `running` when it is admitted; the source extends the list after the admission loop.
- Sizing the KV pool from GPU memory, the contiguous attention path, statistics, and switching gamma, chunk size, policy, operator path or cache at run time.
- `ValueError`s of constructors (sizes below one, unknown policy names, options that exclude each other) are preconditions of the constructors here.
- Draft numerics and the content of the draft's KV: what the draft guesses in a step is a parameter; its tables, blocks and passes are modelled.
- Speculation is modelled for requests whose next token is a function of the history; the source admits greedy requests only.
- `transition`, `reached_max_tokens` and `should_stop` as methods: the first is `MachineTheorems.StepRecords`, the others are inlined where they are used.
- Starvation under `ShortestJobFirst`, which the source allows.
- HTTP, SSE, OpenAI parameters, tokenizer, the detokenizing pump and its failure path, and `_STOP`.
- Servers.AsyncEngine.HandleCall: what a call does with the engine is taken to leave the requests alone.
- Servers.AsyncEngine.StepOnce: the methods of the server are atomic pieces of the two threads; that the queue and the lock make them so is taken from the source, and which of them comes next is left open.
- `miniserve/tools`, `bench/`, `psc/` and the pybind11 glue.
