# A proved model of a paged, continuously batching inference engine

The engine serves many requests on one model at once. Their K/V cache is cut into pages that a block manager
hands out, shares between requests with a common prefix, and evicts; a scheduler decides at every step which
requests compute how many tokens, and preempts, swaps or resumes requests as pages run out; a runner lays the
batch out flat and moves data through the pages; and generated tokens come back to each client as text, cut at
stop strings. None of this may be visible in the answers. That is the main theorem: under any interleaving of
arrivals, aborts and steps, in either scheduling mode, with either kind of preemption, with prefix caching on or
off, a request's tokens and texts are a prefix of what a lone run of it on an unpaged cache would produce, and
equal to it when the request finishes well.

## How it is built

The model has two layers.

* Values. `BlockPool`, `Scheduling`, `Streaming`, `Forward` and `EngineRun` say, as functions, what one operation,
  one step and one run do: the pool and its prefix cache, the queues and every scheduling decision, text
  streaming, the forward pass on pages, and the engine's events. All laws are proved about these.
* Objects. `Sequences`, `Allocator`, `Queueing`, `Batching`, `Caches`, `Runner`, `Attention`, `Graphs` and
  `OnlineEngine` are the program's classes and loops: fields updated in place, queues of shared sequence objects,
  arrays of K/V. Every method is proved to do what the function on values says, so `OnlineEngine.LLMEngine.Step` is
  one step of `EngineRun` and every law holds of it. A ghost `Ledger` (`Mirrors`) says what each object stands for.

The transformer (`Transformer`) is four uninterpreted functions: embed, project, attend and next. What position p
sees in a layer depends on the tokens up to p only, which is all that causality says. `Model` values range over all
such functions, so every theorem holds for any model.

The modules, in the order they build on each other:

| what | modules |
|---|---|
| pages, pool, prefix cache, eviction order | `Basics`, `Paging`, `BlockPool`, `PrefixCache`, `Lru`, `Allocator` |
| text: stop strings, detokenizing, when generation ends | `Streaming`, `Text`, `Endings`, `Utf8`, `Sequences` |
| scheduling, and what every decision keeps | `Scheduling`, `Accounting`, `Planning`, `Stepping`, `Census`, `Modes`, `Guards`, `Publishing`, `Checks` |
| pages' content and the forward pass | `Transformer`, `Memory`, `KvKept`, `Forward`, `Execute`, `Swaps`, `Layout` |
| whole runs | `Results`, `EngineRun`, `Requests`, `Exhaustion`, `Progress`, `Termination`, `Acceptance`, `Order`, `HostRoom`, `Reorder`, `Admission`, `Evictions`, `Delivery`, `Guarantees`, `Reachable`, `Answers`, `Padding` |
| objects and arrays | `Queueing`, `Mirrors`, `Taking`, `Handling`, `Batching`, `Caches`, `Runner`, `Attention`, `Graphs`, `OnlineEngine` |

`dafny verify dfyconfig.toml` verifies the whole project.

## Model

| member | source | states |
|---|---|---|
| `Guarantees.ServingRefinesAlone` | engine/core/scheduler.py:185-372 | Over every run from an empty engine, a live, aborted or failed request has a proper prefix of its lone run's tokens and texts; one finished with "stop" or "length" has all of it, for the same reason |
| `Guarantees.RunSound` | engine/core/engine.py:80-95 | No run ever raises the watchdog's error, and every run keeps the whole invariant: structure, page contents, requests on course, the mode's shape, failures justified |
| `Progress.NeverStuck` | engine/core/engine.py:80-86 | Whenever there is work, a step schedules something, copies something or reports a failure, so the "no progress" error cannot be raised |
| `Guarantees.EveryRunDrains` | engine/core/scheduler.py:194-320 | From any reachable state, steps without arrivals leave nobody in the engine within a measure computed from the state; unchunked, within the number of tokens its requests may still generate |
| `Termination.StepDecreases` | engine/core/scheduler.py:345-372 | A step with work pending lowers the measure: tokens still to generate, then what the oldest running request still has to compute |
| `Guarantees.OnlyOutgrownFail` | engine/core/scheduler.py:223-231 | Whoever else was running, a request that failed had outgrown the whole pool, and if its prompt fitted it had generated exactly one token more than the pool has room for |
| `Guarantees.FittingNeverFail` | engine/core/scheduler.py:283-286 | A request whose prompt and allowance fit the pool never fails |
| `Exhaustion.ScheduleOutgrown` | engine/core/scheduler.py:261-265 | All three places that fail a request do so only for one whose tokens need more pages than there are |
| `Guarantees.ClientReceivesAlone` | engine/core/scheduler.py:367-369 | What is delivered under an id used once is, when its request finishes well, exactly its lone run's tokens and texts |
| `Guarantees.ClientsReceiveAll` | engine/core/scheduler.py:345-372 | At every moment the outputs received under an id, field by field, are exactly what its requests account for: nothing lost, repeated or crossed over, and an end announced exactly when it came |
| `Guarantees.RetiredIsTold` | engine/core/scheduler.py:359-369 | The outputs of a request that has left, its id used once: one for each token, none finished but the last of a finished request, which carries its reason and its counts; a failure has exactly one further output, with "error" |
| `Guarantees.LiveIsTold` | engine/core/scheduler.py:359-369 | No output of a live request says that it has ended |
| `Endings.SoloCompletes` | engine/core/sampler.py:131-139 | A lone run generates the model's own continuation of its prompt and ends at the first token that completes a stop string, is an end token that counts, or uses up what it may generate; said of the tokens, not of the loop |
| `Endings.CompletedMeans` | engine/core/sampler.py:131-139 | So no token before the last is an end token that counts; the reason is "stop" if and only if the text searched holds a stop string or the last token is such a token; otherwise it is "length" and the output has exactly the least count that reaches max_tokens or max_model_len |
| `Endings.AcceptedAllowance` | engine/core/engine.py:97-108 | A request that validation accepts is never cut short by max_model_len: that count is its max_tokens |
| `Answers.EverybodyGenerates` | engine/core/sampler.py:117-139 | Over every run, whoever has finished well has generated up to the first token to end with, for its reason; whoever is live, aborted or failed has reached none; and each was asked for in just these words |
| `Answers.FinishesAsPromised` | engine/core/sampler.py:131-139 | The same, spelled out, of every request that retired well in any run; one that says "length" has generated exactly max_tokens |
| `Answers.ClientIsUpToDate` | engine/core/sampler.py:143-147 | At every moment a live request's client has all of the text searched but the last len - 1 characters, len being that of a longest stop string: nothing safe is held back, nothing else is sent |
| `Answers.ClientReadsAnswer` | engine/core/sampler.py:117-147 | What a client has received of a well-finished request is its decoded output cut at the earliest stop string whenever that output does not end in U+FFFD; in general exactly when its earliest stop string lies in the text searched |
| `HostRoom.RecomputeKeepsOrder` | engine/core/scheduler.py:306-320 | In recompute mode a request admitted before another stays ahead of it, from any reachable state on |
| `HostRoom.AmpleHostKeepsOrder` | engine/core/scheduler.py:306-320 | In swap mode the same holds, and nobody is ever dropped, when the host has pages for as many requests of the greatest length as may run |
| `HostRoom.FitsNeverMixes` | engine/core/scheduler.py:311-320 | In swap mode, while every victim finds room on the host, no state has both kinds of victims |
| `HostRoom.RunCrowd` | engine/core/scheduler.py:194-209 | Running and swapped requests together never exceed max_num_seqs, in either mode |
| `Order.RunKeepsOrder` | engine/core/scheduler.py:211-320 | Over any run in which the two kinds of victims are never mixed, whoever was admitted first stays ahead until it leaves |
| `Order.PreemptKeepsOrder` | engine/core/scheduler.py:306-320 | A preemption leaves the line-up as it is if and only if nobody is swapped out or the victim's pages fit the host |
| `Reorder.MixedVictimsReorder` | engine/core/scheduler.py:306-320 | A concrete run from an empty engine in which mixed victims do change the order |
| `Evictions.LeastRecentlyUsed` | engine/core/block_manager.py:156-172 | In every reachable state the evictable list is in order of last release, and between any two states of a run no block gave up its content while one released before it kept its own |
| `Lru.EvictsOldest` | engine/core/block_manager.py:156-164 | Taking a block takes the head of the free list and evicts nothing; only when none is free is a block evicted, and then the one released longest ago |
| `Lru.TailFirst` | engine/core/block_manager.py:144-150 | The blocks of a freed table are released last first, each at its exact moment, so a tail is evicted before the prefix it hangs on |
| `Reachable.BooksAreInOrder` | engine/core/scheduler.py:376-390 | Every reachable state passes every assertion of both invariant checkers, and its waiting queue is sorted |
| `Checks.PassesChecks` | engine/core/block_manager.py:215-252 | Those assertions, one by one: tables, reference counts, the three GPU pools, hashes, the host pools, and each live request in one queue |
| `Reachable.CachesAreRight` | engine/core/block_manager.py:96-112 | In every reachable state each running request's pages, each swapped request's host pages and each published page hold the K/V of exactly their own tokens |
| `Reachable.NextStepIsSafe` | engine/core/model_runner.py:110-121 | The next step writes only pages with one holder and no published hash that stand in no other table, copies pages one way and inside the caches, and keeps its mode's shape |
| `Execute.WritesArePrivate` | engine/core/block_manager.py:80-83 | A page that a planned batch writes has reference count one, is unpublished and is in no other running table |
| `Execute.PassOk` | engine/core/model_runner.py:82-98 | A forward pass over the flat batch leaves every computed position's K/V, and samples for every request what its lone run would sample next |
| `Modes.ScheduleShape` | engine/core/scheduler.py:203-253 | Chunked, nobody running is skipped, the batch stays within the token budget and at most one swapped request is part-way; unchunked, everybody running decodes |
| `Modes.PlanNeverNegative` | engine/core/scheduler.py:240-253 | The planned numbers of tokens never go negative in a reachable state |
| `Census.ScheduleMoves` | engine/core/scheduler.py:185-238 | Planning neither loses, duplicates nor alters a request, and whoever leaves has failed and been reported |
| `Planning.PreemptOk` | engine/core/scheduler.py:306-320 | Preempting a request in hand, either way, keeps the accounting, everybody else's tables and who is in the engine |
| `Planning.SwapInOneOk` | engine/core/scheduler.py:255-274 | A swap-in takes exactly the blocks its guard counted and leaves the watermark free when anything is running |
| `Planning.AdmitOneOk` | engine/core/scheduler.py:276-297 | An admission computes at least one token and leaves the watermark free when anything is running |
| `Stepping.ScheduleOk` | engine/core/scheduler.py:185-209 | Planning a whole step, in either mode, keeps every structural invariant and visits everybody running |
| `Stepping.UpdateOk` | engine/core/scheduler.py:345-372 | Taking a step's results keeps every structural invariant |
| `Swaps.ScheduleOneWay` | engine/core/scheduler.py:185-192 | No step copies in both directions, and a step's destinations are distinct |
| `Swaps.ScheduleInside` | engine/core/block_manager.py:179-207 | Every copy of a step stays inside the two caches |
| `Swaps.NoVictimRuns` | engine/core/scheduler.py:211-238 | Nobody is both in a batch and among the victims |
| `Swaps.CopiesTogether` | engine/core/model_runner.py:154-171 | With distinct destinations, copying pages one by one is one gather and one scatter |
| `Memory.LaterSwapOut` | engine/core/model_runner.py:85-88 | Performing all swap-outs just before the pass leaves the memory that performing each at its decision would |
| `Memory.LaterSwapIn` | engine/core/model_runner.py:85-88 | The same of swap-ins |
| `PrefixCache.HitsAreOwnPrefix` | engine/core/block_manager.py:80-94 | A prefix lookup's hits are distinct and each is published under the request's own tokens up to its end |
| `PrefixCache.HitsLongest` | engine/core/block_manager.py:88-94 | They are the longest run of published blocks along the hash chain |
| `PrefixCache.PrefixHashInjective` | engine/core/block_manager.py:70-78 | Equal chain hashes mean equal tokens from the first on, so equal blocks under different prefixes never match |
| `PrefixCache.ExtendHashesOk` | engine/core/block_manager.py:70-78 | Extending memoised hashes gives the hashes of the leading full blocks |
| `Accounting.CachedPrefixOk` | engine/core/block_manager.py:80-94 | The hits are distinct and published under the request's own leading tokens, leave at least one token to compute, and if one more block would still do so, no block is published for it |
| `Publishing.StepPublishes` | engine/core/block_manager.py:96-112 | After a step, every block of tokens that it filled is published, under its own block or one published before, and stays so when its request ends in that step |
| `Guards.CanAllocateExactly` | engine/core/block_manager.py:116-121 | A request may start behind its hits if and only if the blocks nobody holds, other than those hits and the watermark, have room for its new tokens; a hit that others hold costs nothing |
| `Guards.CanSwapInExactly` | engine/core/block_manager.py:190-192 | A swapped request may come back if and only if the blocks nobody holds, less the watermark, have room for all its tokens |
| `Guards.CanAppendExactly` | engine/core/block_manager.py:138-139 | A running request gets room if and only if its table and the blocks nobody holds have it |
| `Guards.SwapInStops` | engine/core/scheduler.py:255-274 | The swap-in pass stops only when nobody is swapped out, seats or tokens are spent, or the next one's blocks really do not fit |
| `Guards.AdmitStops` | engine/core/scheduler.py:276-297 | Admission stops only when nobody waits, seats or tokens are spent, or the next one's share, behind its longest cached prefix, exceeds the tokens left or really does not fit |
| `Guards.PreemptsExactly` | engine/core/scheduler.py:211-238 | The running pass preempts or fails somebody if and only if its planned tokens need more blocks, besides those in its tables, than nobody holds |
| `Guards.ChunkedStops` | engine/core/scheduler.py:202-209 | A chunked step that preempts nobody spends all its tokens or leaves no prompt unfinished, and nobody else could have been brought back or, all being back, let in |
| `Guards.PriorityStops` | engine/core/scheduler.py:194-201 | An unchunked step lets in whoever it can before it decodes, and if then nobody had to make room, brings back whoever it can |
| `Accounting.AllocateValid` | engine/core/block_manager.py:116-136 | When its guard allows it, an allocation lowers the free count by exactly the new blocks plus the hits nobody used, evicts none of its hits and keeps the pool valid |
| `Accounting.AppendSlotsRunOk` | engine/core/block_manager.py:138-154 | Growing a table leaves it with exactly the blocks its computed and new tokens need, distinct, the ones to be written unpublished |
| `Accounting.AppendSlotsValid` | engine/core/block_manager.py:138-154 | Guarded growth never takes from empty pools, and takes exactly what is missing |
| `Accounting.SwapOutValid` | engine/core/block_manager.py:176-188 | A guarded swap-out moves a whole table to distinct host blocks, and both pools still partition their blocks |
| `Accounting.SwapInValid` | engine/core/block_manager.py:190-207 | A guarded swap-in takes one fresh block for each host block and gives every host block back |
| `BlockPool.PoolPartition` | engine/core/block_manager.py:7-13 | Free, evictable and held blocks partition the pool |
| `Admission.RunSorted` | engine/core/scheduler.py:98-111 | Over every run the waiting queue is sorted by its policy's key |
| `Admission.EnqueuePlace` | engine/core/scheduler.py:98-100 | A new request goes in behind everything whose key is no larger and ahead of everything larger, so ties stay in arrival order |
| `Reachable.NextIsBest` | engine/core/scheduler.py:76-81 | In every reachable state, under the priority policy, the head of the queue has the best aged priority of all that wait, at every moment one looks |
| `Reachable.NextIsFirst` | engine/core/scheduler.py:71-96 | In every reachable state the head of the queue goes first by its policy: earliest arrival; shortest prompt; or, without aging, smallest priority, a request without one counting by its prompt's length; ties by arrival |
| `Admission.NoOvertaking` | engine/core/scheduler.py:76-81 | A request that arrives late enough, by the ratio of priorities to the aging rate, goes in behind a waiting one |
| `Text.FindStopIsEarliest` | engine/core/sampler.py:107-114 | If no stop string was completed before, searching the window finds the index that searching the whole text would find |
| `Text.StreamedIsCut` | engine/core/sampler.py:117-147 | Everything a lone run returns, put together, is its full text cut at the earliest stop string, if and only if the text flushed at the end completes none |
| `Text.OneCut` | engine/core/sampler.py:131-134 | A text has only one cut |
| `Text.FlushedStopIsReturned` | engine/core/sampler.py:140-147 | A concrete run whose flushed text completes a stop string, which is returned nevertheless |
| `Utf8.StreamedIsDecode` | engine/core/sampler.py:79-104 | With a byte-level tokenizer the text searched is all of the decoded output exactly when that does not end in U+FFFD, and then what is returned is the decoded output cut at its earliest stop string |
| `Utf8.DecodeSplits` | engine/core/sampler.py:68-71 | Lossy UTF-8 decoding splits wherever the left part does not decode to a text ending in U+FFFD |
| `Utf8.DecodeTokensSplits` | engine/core/sampler.py:74-76 | So does decoding tokens that are byte strings |
| `Utf8.DecodeEncode` | engine/core/sampler.py:86-87 | Decoding what section 3 of RFC 3629 encodes gives the text back |
| `Utf8.AddOk` | engine/core/sampler.py:89-96 | After each token the pieces emitted so far are the decode of the tokens read, and the window holds the rest |
| `Utf8.FlushOk` | engine/core/sampler.py:98-104 | Pieces and flushed rest together are the full decode |
| `Layout.CsrIsNaive` | engine/model/attention.py:183-193 | The compressed block tables name the same slots in the same order as the flat list, the last page holding 1 to block_size tokens |
| `Layout.ChunkSees` | engine/model/attention.py:97-102 | However a prefill is cut into chunks, the mask lets a query see the keys up to its own position and no others |
| `Layout.SampledRows` | engine/core/model_runner.py:122-124 | The logits indices select exactly the last rows of the requests that sample |
| `Padding.ReplaysAgree` | engine/core/cuda_graphs.py:93-125 | Over any run, replaying graphs for decode-only batches gives the same outputs and states, and no page but the scratch page differs |
| `Padding.PassSame` | engine/core/cuda_graphs.py:96-117 | Padding rows change no other row's activations and no page but the one they write |
| `Padding.BucketFits` | engine/core/cuda_graphs.py:44-46 | For every batch there is a size: the least captured one with room, and less than twice the need unless it is the largest |
| `Graphs.GraphRunner.Load` | engine/core/cuda_graphs.py:93-109 | The static buffers hold the very rows that the plain layout has, then token 0 at position 0 in the scratch block's first slot |
| `Graphs.GraphRunner.Run` | engine/core/cuda_graphs.py:93-125 | A replay leaves in the cache and samples what the forward pass over the batch and its padding gives |
| `Graphs.GraphRunner.Replays` | engine/core/cuda_graphs.py:86-91 | A batch may be replayed if and only if every request in it computes one token and samples, and a size has room for it |
| `Graphs.ExecuteWithGraphs` | engine/core/model_runner.py:82-98 | With graphs on, a step's swaps and its replay or plain pass together give what the padded pass says |
| `OnlineEngine.LLMEngine.Step` | engine/core/engine.py:80-95 | One iteration of the object program is one step of the state machine, with the same outputs |
| `OnlineEngine.LLMEngine.AddRequest` | engine/core/engine.py:97-113 | A request with a prompt of known tokens, something to generate, room for both in max_model_len and an id nobody uses is waiting afterwards, as it was asked for; any other leaves everything as it was |
| `Acceptance.AddTakes` | engine/core/sequence.py:41-49 | The same of the state machine's arrival: exactly the servable requests under free ids are taken, and the others leave it as it was |
| `Acceptance.RunAsked` | engine/core/engine.py:97-113 | Over every run, everybody in the engine or gone from it was asked for by one of the events in just these words, and could be served |
| `Acceptance.AbortTakesOut` | engine/core/scheduler.py:156-174 | The same of the state machine's abort: one place of one queue is given up |
| `OnlineEngine.LLMEngine.Abort` | engine/core/scheduler.py:156-174 | The request that bears the id gives up its place in its queue and leaves, nobody else moves; unknown ids change nothing |
| `OnlineEngine.LLMEngine.Drain` | engine/core/engine.py:138-139 | Stepping until idle ends, with nobody left, and is a run of steps |
| `OnlineEngine.LLMEngine.Generate` | engine/core/engine.py:129-140 | Offline generation is a run of the arrivals followed by steps until nothing is left, or stops at a refused prompt before any step |
| `Requests.AbortDispatch` | engine/core/scheduler.py:162-171 | Abort's dispatch on the request's own state picks the one queue that holds it |
| `Batching.Scheduler.Schedule` | engine/core/scheduler.py:185-209 | Over its queues of objects the scheduler plans exactly the step that the function on values plans; batch and copies are that plan's |
| `Batching.Scheduler.ScheduleRunning` | engine/core/scheduler.py:211-238 | The running pass, preempting from the newest end, in place |
| `Batching.Scheduler.PlanRunningTokens` | engine/core/scheduler.py:240-253 | The numbers planned for the running requests, decodes first |
| `Batching.Scheduler.SwapIn` | engine/core/scheduler.py:255-274 | The swap-in pass, in place, is the function's, which stops only where `Guards.SwapInStops` says |
| `Batching.Scheduler.Admit` | engine/core/scheduler.py:276-297 | The admission pass, in place, is the function's, which stops only where `Guards.AdmitStops` says |
| `Batching.Scheduler.Preempt` | engine/core/scheduler.py:306-320 | Preempting one request, by swapping it out or dropping it |
| `Batching.Scheduler.Fail` | engine/core/scheduler.py:329-341 | Failing one request, its output queued |
| `Batching.Scheduler.Update` | engine/core/scheduler.py:345-372 | Taking a batch's samples, in place, is the function's update, whose outputs are those that `Guarantees.RetiredIsTold` and `Guarantees.LiveIsTold` describe; the running list keeps whoever has not finished |
| `Batching.Scheduler.Add` | engine/core/scheduler.py:149-154 | Queueing a new request, unless its id is in use |
| `Batching.Scheduler.Abort` | engine/core/scheduler.py:156-174 | Taking a request out of its queue and giving back its blocks |
| `Batching.ScheduledBatch.Add` | engine/core/scheduler.py:51-57 | The batch's parallel lists and counters stay those of the requests visited |
| `Queueing.WaitingQueue.Push` | engine/core/scheduler.py:98-100 | Pushing enters the queue behind everything whose key is no larger |
| `Queueing.WaitingQueue.Pop` | engine/core/scheduler.py:107-111 | Popping takes the queue's first request, entries removed earlier being skipped |
| `Queueing.WaitingQueue.Remove` | engine/core/scheduler.py:113-114 | Removing by id takes that request out and nothing else, though its entry stays in the heap |
| `Queueing.WaitingQueue.PopLeast` | engine/core/scheduler.py:102-111 | The queue's first request is the live entry with the least key, first pushed among equals |
| `Allocator.BlockManager.TakeFreeBlock` | engine/core/block_manager.py:156-164 | In place, the pool function's choice of a block |
| `Allocator.BlockManager.Free` | engine/core/block_manager.py:144-150 | In place, a whole table given back, last block first |
| `Allocator.BlockManager.CachedPrefix` | engine/core/block_manager.py:80-94 | The lookup loop finds the value function's hits, the longest prefix of `Accounting.CachedPrefixOk`, hashes memoised |
| `Allocator.BlockManager.CacheFullBlocks` | engine/core/block_manager.py:96-112 | The publishing loop does what the value function says and keeps the pool valid |
| `Allocator.BlockManager.CanAllocate` | engine/core/block_manager.py:116-121 | Counting the hits nobody holds one by one, the guard's value, exact by `Guards.CanAllocateExactly` |
| `Allocator.BlockManager.Allocate` | engine/core/block_manager.py:123-136 | Pinning the hits and growing the table, in place |
| `Allocator.BlockManager.SwapOut` | engine/core/block_manager.py:179-188 | In place, the copies listed in table order |
| `Allocator.BlockManager.SwapIn` | engine/core/block_manager.py:194-207 | In place, the copies listed in host-table order |
| `Sequences.IncrementalDetokenizer.Add` | engine/core/sampler.py:89-96 | In place, the window's move and the piece it lets out |
| `Sequences.FindStopIn` | engine/core/sampler.py:107-114 | The loop over the stop strings finds the least index |
| `Sequences.AppendSampled` | engine/core/sampler.py:117-147 | In place, the token's effect on the request, the text safe to send and the reason to end, which `Endings.SoloCompletes` and `Answers.ClientIsUpToDate` state without it |
| `Caches.KVCache.Write` | engine/model/attention.py:133-137 | Writing by slot number scatters K/V into the pages, one layer of them |
| `Caches.CopyBlocks` | engine/core/model_runner.py:154-171 | Copying blocks between caches copies pages |
| `Runner.Prepare` | engine/core/model_runner.py:100-150 | Every row holds its token, position and slot; the logits indices, row starts and each sequence's cached slots are right |
| `Runner.PagedKvIndex` | engine/model/attention.py:183-193 | Each sequence's part of the compressed form names its own slots |
| `Attention.VisibleKeys` | engine/model/attention.py:97-102 | Picking keys one by one by the mask gives the keys up to the query's position |
| `Attention.AttendLayer` | engine/model/attention.py:146-154 | One layer's attention call leaves the cache and gives the activations that the pass on pages says |
| `Attention.ForwardPass` | engine/core/model_runner.py:94-95 | All layers in turn are the pass on pages |
| `Attention.ModelRunner.Swap` | engine/core/model_runner.py:154-171 | The swaps on the two caches are the page copies, outs before ins |
| `Attention.ModelRunner.Execute` | engine/core/model_runner.py:82-98 | Swaps, layout, layers and sampling together are a batch of the state machine |

## Findings

Two laws the code is meant to keep do not hold of it on all inputs. The code is modelled as it is.

| law | where it fails | exactly when it holds |
|---|---|---|
| what a client receives is the full text cut at the earliest stop string (engine/core/sampler.py:117-124, tests/test_scheduler.py:37-50) | `Text.FlushedStopIsReturned`: text flushed when a request ends is not searched, so a stop string that ends in it is returned | `Text.StreamedIsCut`: if and only if the flushed text completes no stop string; `Utf8.StreamedIsDecode`: with a byte-level tokenizer always when the decoded output does not end in U+FFFD, and otherwise exactly when its earliest stop string lies in the text searched |
| victims wait in their original order (engine/core/scheduler.py:19-22) | `Reorder.MixedVictimsReorder`: with one host block, the newest of three requests is swapped out, the next finds the host full, is dropped, and falls behind the one admitted after it | `Order.PreemptKeepsOrder`: a preemption keeps the line-up if and only if nobody is swapped out or the victim fits the host; over runs, `HostRoom.RecomputeKeepsOrder` and `HostRoom.AmpleHostKeepsOrder` |

Neither changes any request's tokens: `Guarantees.ServingRefinesAlone` holds regardless.

## Left out

- The transformer's arithmetic, softmax, temperature, top-p and random draws: floating point. The next token is an uninterpreted function of the last activations.
- SHA-256: a block's hash is a free constructor over its parent's hash and its tokens, which is what collision freedom would give.
- FlashInfer's kernels, graph capture, pinned memory and device transfers: foreign code. The kernel is taken to attend over the slots that its compressed block tables name, and a replay to be the pass that was captured.
- The HTTP server, streaming responses and disconnects: an abort is an arbitrary event between steps.
- profile_num_blocks, the loader, command line, step log, clocks and statistics, including num_preemptions, num_cached_tokens, first_token_time and the hit counters: none of them influences a decision.
- Failed steps, where a forward pass raises between planning and update: execution is total here.
- The texts of error messages.
- Queueing.WaitingQueue.Push: the heap is kept as a list in key order, not as heapq's array; a binary heap's internal order is not modelled. Lazy deletion, counters and id reuse are.
- Batching.Scheduler.PlanRunningTokens: the plan is a list in running order where the program has a dictionary keyed by sequence.
- Caches.KVCache.Write: one K/V value per layer and position stands for both tensors and all heads.
- Attention.ModelRunner.Execute: a runner without host pages has an empty host cache where the program has none.
- OnlineEngine.LLMEngine.Step: the engine object executes its batches without graphs; `Padding.ReplaysAgree` carries its runs over to an engine that replays them.
- Graphs.GraphRunner.Load: rows are written straight into the static buffers, where the program first packs them for one transfer.
- Reals stand for floating-point priorities and arrival times.
