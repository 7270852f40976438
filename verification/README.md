# Verified models of the cache-scheduling, capture and warmup tooling

This project models the parts of the repository whose correctness rests on facts that no single
function shows: a discrete-event cache-scheduling simulator, the ledger of published KV blocks and
the block trie that classifies them, the lifecycle of speculative prefill warmups, a session
controller with rolling preparation, a two-thread capture log with its offline validator, and the
conservative attribution, stream-splitting and interval arithmetic of the reports.

`dafny verify dfyconfig.toml` checks all of it.

## How the files fit together

- `Headroom*.dfy`: the simulator. `HeadroomModel` holds the data and the transition functions,
  `HeadroomCache` the block cache, `HeadroomInvariant`, `HeadroomSteps`, `HeadroomJobs` and
  `HeadroomDispatch` the invariant of every reachable state, `HeadroomChoice` what dispatch decides,
  `HeadroomProgress` and `HeadroomRun` termination and whole runs, `HeadroomHistory`, `HeadroomTallies`
  and `HeadroomResults` what the event log says about the counters, `HeadroomTimes`,
  `HeadroomRevisions`, `HeadroomStatus`, `HeadroomLiveness`, `HeadroomReach` and `HeadroomObsolete` when
  things happen and what every behaviour shows, `HeadroomWorkload` the check of a workload, and `HeadroomSimulation` the program's object with its loops, proved against the
  transition functions.
- `PublishedLedger`: the fold of a lossy event stream into present and historical blocks.
- `BlockTrie`, `BlockReuse`, `BlockResolution`, `TrialCapture`: block identity, its agreement with
  prefix arithmetic, the resolution and classification of published blocks, and the report of a
  captured trial.
- `PrefillLifecycle`, `PrefillProgress`, `PrefillStream`: warmups as a step relation over owners,
  drivers, polled futures and blocking closures; what decides their fate; the tapped client stream.
- `RollingSession`: the session loop and its background preparation.
- `CaptureLog`, `CaptureRuns`: producer, writer and validator; the close status and which captures are
  accepted.
- `PreparationCredit`, `SseSplitter`, `MissCauses`, `WindowOverlap`: attribution and parsing.
- `Wrappers`, `Numbers`, `Sorting`: options and results, larger and smaller numbers, insertion sort.

Where a program works step by step, its methods are modelled as methods with loops and proved
against functions on values; the theorems are about those functions. Concurrent code is modelled as
steps, and the theorems are about every sequence of steps.

## Conventions of the model

- Time in the simulator is `real`; the program's floating-point rounding is not modelled.
- Chained digests are modelled by the block prefix they cover, so they are injective.
- The event heap is a set popped at its least element; serial numbers make that unique.
- A preparation job carries the index of the turn that launched it. The program's record does not;
  the field only lets the look-up at its finish be compared with its launch.
- A dictionary iterated in insertion order is a map and a sequence of its keys, or a list of keys in
  any order where the order does not matter.
- Clocks, networks, tokenizers, renderers, models and tools are parameters: any values they return
  are allowed.
- In the capture log one producer thread calls `write` and `close`, as the program's design assumes;
  a raising write may leave any lines behind.
- In the prefill steps a poll of the inner future is not interrupted by its own driver, and outside
  cancellation may come between any two steps. A publish and the call that follows it are two steps
  of one poll.

## Model

| member | source | states |
|---|---|---|
| HeadroomModel.FirstExists | dynamo_headroom.py:110-112 | a nonempty event queue has a least element under (time, kind order, serial) |
| HeadroomModel.FirstUnique | dynamo_headroom.py:110-112 | serial numbers make that element unique, so popping the queue is deterministic |
| HeadroomModel.CachedPrefix | dynamo_headroom.py:121-125 | the result is the length of the longest prefix of keys that are present and not pending |
| HeadroomCache.KeyIdentity | dynamo_headroom.py:18-24 | two block lists share a key exactly when they agree on every block up to it |
| HeadroomCache.ReservationCount | dynamo_headroom.py:127-132 | entries plus absent keys equal unprotected entries plus all keys, so whenever the count exceeds the capacity an unprotected victim exists |
| HeadroomCache.ReserveShape | dynamo_headroom.py:127-137 | a reservation stays within capacity, keeps every reserved key, retains tags, and marks as pending only keys that were absent |
| HeadroomCache.HitsCount | dynamo_headroom.py:240-245 | charging hits moves each speculative tag into the useful counter: useful plus entries still speculative is conserved, and every hit is counted once |
| HeadroomCache.ReserveFresh | dynamo_headroom.py:127-137 | a reservation never raises the number of entries tagged speculative |
| HeadroomCache.EvictsNoMore | dynamo_headroom.py:127-137 | if a reservation evicts even one entry, the cache is full afterwards |
| HeadroomCache.EvictsOldest | dynamo_headroom.py:127-137 | an evicted entry is none of the reserved ones, every older unreserved entry is evicted with it, and the cache is full afterwards |
| HeadroomCache.ReservedLast | dynamo_headroom.py:127-137 | a reservation makes its keys the newest entries, in their order, and leaves the others in theirs |
| HeadroomJobs.FireKeeps | dynamo_headroom.py:167-227 | handling any pending event finds every dictionary entry it needs and keeps the invariant: capacity, ownership of pending entries, one job at a time, one token per workflow, accounting, clock, intent identity |
| HeadroomDispatch.LaunchDemandKeeps | dynamo_headroom.py:236-254 | starting a queued request keeps the invariant |
| HeadroomDispatch.LaunchPreparationKeeps | dynamo_headroom.py:274-285 | starting a preparation chunk keeps the invariant; under future timing none of the intent's updates is left |
| HeadroomDispatch.DispatchKeeps | dynamo_headroom.py:229-285 | once all events of an instant are handled, choosing work is well defined under every policy, keeps the invariant, and schedules nothing at that same instant |
| HeadroomDispatch.DemandFirst | dynamo_headroom.py:230-254 | waiting requests are served in order and before any preparation: the first whose workflow still runs is started, those before it are dropped, those behind it stay |
| HeadroomDispatch.PreparationLast | dynamo_headroom.py:232-285 | preparation is considered only when no waiting request can be started |
| HeadroomChoice.RequestStarts | dynamo_headroom.py:230-254 | of the waiting requests the first whose workflow still runs is started, the log and the charge show prefill of exactly the blocks not cached plus decoding, each hit is counted as useful exactly when a preparation computed it and nothing used it since, hits become ordinary, and the job is due after its cost |
| HeadroomChoice.PreparationStarts | dynamo_headroom.py:255-285 | with no startable request, a policy other than off and budget left, the first intent in order that is active, running and not fully resident, and under future timing not to be cancelled, eligible and at or past its latest start, is prepared: exactly one start is logged, for the least of missing blocks, budget left and chunk, the finish of exactly those blocks is due after their prefill time, and of the intents before it exactly the postponed ones get a wake-up, at their latest start |
| HeadroomChoice.NothingStarts | dynamo_headroom.py:255-273 | if no intent qualifies, the policy is off or the budget is used up, nothing is started or logged, and wake-ups are set exactly for the postponed intents |
| HeadroomChoice.FinishTags | dynamo_headroom.py:198-214 | a finished preparation leaves exactly its blocks speculative, a finished request its blocks ordinary, no other entry changes, and the GPU is free |
| HeadroomProgress.WakeupPoint | dynamo_headroom.py:159-165 | a wake-up is strictly later than now and falls at the intent's eligible time or at its ready time less a whole number of its blocks |
| HeadroomProgress.FireCharge | dynamo_headroom.py:167-227 | every event but a wake-up uses up some of a measure of the work that is left, and a wake-up changes nothing else |
| HeadroomRun.InstantProgress | dynamo_headroom.py:294-301 | each round of the event loop lowers the work left, or leaves it and consumes one of finitely many wake-up points: the loop terminates |
| HeadroomRun.StartInv | dynamo_headroom.py:290-293 | the state after admitting the workflows satisfies the invariant |
| HeadroomTallies.FireTallies | dynamo_headroom.py:167-227 | every event keeps this balance: computed blocks are those of the finished preparations the log shows and of the one in flight, and late blocks are among the finished ones |
| HeadroomTallies.AdvanceOccupied | dynamo_headroom.py:117-119 | moving the clock keeps resident block time between 0 and what a cache full from the start would have accumulated |
| HeadroomResults.FinishedPreparation | dynamo_headroom.py:198-212 | in every state of every behaviour the intent that a preparation in flight will find is the one that launched it; under future timing its revision is unchanged and the work is obsolete exactly when the workflow timed out |
| HeadroomResults.Reachable | dynamo_headroom.py:89-310 | in every state of every behaviour the invariant holds, the log balances the counters, recorded turns are 0, 1, 2 in order, time has not gone back, records have only grown, and ended workflows keep their status |
| HeadroomResults.JobsBounded | dynamo_headroom.py:229-285 | in every state of every behaviour at most one job per turn and one per budgeted block has started |
| HeadroomResults.AlwaysCounted | dynamo_headroom.py:89-310 | in every state of every behaviour: peak within capacity, useful within computed within budget, charged time equals the log's blocks and decodes, computed blocks are those finished plus those in flight, obsolete and late blocks are at most the computed ones, resident block time at most that of a full cache |
| HeadroomResults.RunEnds | dynamo_headroom.py:294-302 | a run from any such state ends at the observation end with no event due |
| HeadroomResults.RunReport | dynamo_headroom.py:287-310 | for every validated workload and policy: peak within capacity, 0 <= useful <= computed <= budget, charged demand time equals prefill cost of the blocks not reused plus decode time, charged speculative time equals prefill cost of the blocks prepared, none under the off policy, obsolete blocks are those the log shows, obsolete and late blocks are at most the computed ones, resident block time is at most capacity times observed time, reused and prepared blocks are those the log shows, every workflow has ended, completion within the horizon, and under future timing every obsolete completion follows that workflow's deadline |
| HeadroomTimes.FireTimely | dynamo_headroom.py:167-227 | every event handled at its time keeps all times right: ready events, updates, jobs, waiting requests, intents and rows |
| HeadroomRevisions.PreparationLate | dynamo_headroom.py:206-208 | the late counter is the sum of the log's preparations that finished later than their workflow's last finished request by more than the next turn's wait |
| HeadroomReach.TurnsOnTime | dynamo_headroom.py:139-147 | in every behaviour a recorded turn became ready its wait after the turn before it was completed, or after the arrival, and the log shows its request started no earlier and completed after exactly its cost |
| HeadroomReach.CompletedOnTime | dynamo_headroom.py:223-225 | a completed workflow has all its turns recorded, and its completion time is the last row's completed time less its arrival |
| HeadroomReach.RevisionsApplied | dynamo_headroom.py:184-197 | in every behaviour, whenever an instant is over, exactly the updates whose time has come have been applied to a running workflow's intent: they are its revision number, and the blocks it asks for are those of the latest of them |
| HeadroomReach.StatusExplained | dynamo_headroom.py:170-192 | in every behaviour a workflow has timed out exactly when the log shows its deadline hit, at its due time, and is cancelled exactly when the log shows that |
| HeadroomObsolete.ObsoleteExactly | dynamo_headroom.py:198-212 | in every behaviour and under every policy a finishing preparation is logged and counted as obsolete exactly when its workflow no longer runs or an update of its turn came after the time at which the log shows it launched |
| HeadroomReach.WorkConserving | dynamo_headroom.py:229-285 | in every behaviour, when work has been chosen and the GPU is idle, no request of a running workflow waits and, unless the policy is off or the budget is used up, no intent qualifies for preparation |
| HeadroomReach.StartsNotMissed | dynamo_headroom.py:159-165 | in every behaviour under future timing with budget left, when the GPU is idle an event is scheduled for the time at which any intent that may still be prepared becomes eligible or reaches its latest start |
| HeadroomReach.MetersExact | dynamo_headroom.py:117-137 | in every behaviour the resident-time counter is exactly the entries held summed over time, and the peak counter exactly the most entries ever held |
| HeadroomReach.RunTold | dynamo_headroom.py:294-302 | the run passes through the states of a behaviour, so its final state has the times, the late count and the meters above |
| HeadroomLiveness.NeverStuck | dynamo_headroom.py:139-254 | in every behaviour a running workflow has exactly one thing pending: its arrival, its ready event, a place in the queue or a request in flight |
| HeadroomLiveness.ServedInOrder | dynamo_headroom.py:177-183 | in every behaviour waiting requests stand in the order in which they became ready, and the order in which intents are looked at only grows at its end, with each workflow once |
| HeadroomSimulation.Simulation.CountCached | dynamo_headroom.py:121-125 | the scan computes the cached prefix |
| HeadroomSimulation.Simulation.FindVictim | dynamo_headroom.py:131 | the scan with no default finds the oldest unprotected entry whenever one exists |
| HeadroomSimulation.Simulation.Evict | dynamo_headroom.py:128-132 | deletes the oldest unprotected entries, exactly as many as needed, and touches no protected entry |
| HeadroomSimulation.Simulation.ReserveBlocks | dynamo_headroom.py:127-137 | the loops compute the reservation that the cache lemmas are about |
| HeadroomSimulation.Simulation.ArmWakeup | dynamo_headroom.py:159-165 | schedules the wake-up of the transition function, or nothing |
| HeadroomSimulation.Simulation.BeginTurn | dynamo_headroom.py:139-157 | computes the turn start: ready event, intent, updates in order, wake-up |
| HeadroomSimulation.Simulation.ExpireWorkflow | dynamo_headroom.py:170-176 | computes the deadline transition |
| HeadroomSimulation.Simulation.EnqueueRequest | dynamo_headroom.py:177-183 | computes the ready transition |
| HeadroomSimulation.Simulation.ApplyUpdate | dynamo_headroom.py:184-197 | computes the revision or cancellation transition, or ignores a stale update |
| HeadroomSimulation.Simulation.FinishPreparation | dynamo_headroom.py:198-212 | computes the transition of a finished preparation |
| HeadroomSimulation.Simulation.FinishRequest | dynamo_headroom.py:213-227 | computes the transition of a finished request: row, completion or next turn |
| HeadroomSimulation.Simulation.HandleEvent | dynamo_headroom.py:167-227 | dispatches an event to its handler's transition |
| HeadroomSimulation.Simulation.CountHits | dynamo_headroom.py:240-245 | the loop over the cached prompt computes the charging of hits |
| HeadroomSimulation.Simulation.StartRequest | dynamo_headroom.py:236-254 | computes the launch of a request |
| HeadroomSimulation.Simulation.StartPreparation | dynamo_headroom.py:274-285 | computes the launch of a preparation chunk |
| HeadroomSimulation.Simulation.PrepareNext | dynamo_headroom.py:260-285 | the loop over intents computes the preparation choice |
| HeadroomSimulation.Simulation.ChooseWork | dynamo_headroom.py:229-285 | computes the dispatch transition in every state that satisfies the invariant |
| HeadroomSimulation.Simulation.DrainInstant | dynamo_headroom.py:298-300 | the inner loop handles exactly the events of the instant, in queue order, and terminates |
| HeadroomSimulation.Simulation.Run | dynamo_headroom.py:287-310 | the outer loop terminates and ends in the state of the terminating run function; the report is read off that state |
| HeadroomSimulation.Simulate | dynamo_headroom.py:90-94 | exactly the validated workloads are simulated; their report has one row per workflow in order, no workflow left running, completion capped by the horizon and otherwise from arrival to the end of the last turn, each turn ready its wait after the one before and taking at least its cost, every counter equal to what the report's own log shows, a nonnegative unconsumed count within the budget, obsolete and late blocks within the computed ones, and resident block time within capacity times observed time |
| HeadroomWorkload.Validate | dynamo_headroom.py:27-86 | the checks, loop by loop, accept exactly the valid workloads: positive sizes and times, distinct nonempty ids, nonempty prompts that fit the cache, first turns without intent or updates, and updates in order within the wait whose prefixes fit |
| PublishedLedger.HashKey | experiments/dynamo-upstream/gpu-readiness/collect_kv.py:14-19 | a hash has a ledger key exactly when it is bytes or a nonnegative integer |
| PublishedLedger.HashKeyInjective | experiments/dynamo-upstream/gpu-readiness/collect_kv.py:14-19 | distinct hashes have distinct keys |
| PublishedLedger.PutsAt | experiments/dynamo-upstream/gpu-readiness/collect_kv.py:80-89 | the records of a stored event form a chain, each with its own 16 tokens and the previous key as parent |
| PublishedLedger.AlwaysAgree | experiments/dynamo-upstream/gpu-readiness/collect_kv.py:31-94 | after any deliveries whatever, each present block is in the history with the same record |
| PublishedLedger.CompleteMeansExact | experiments/dynamo-upstream/gpu-readiness/collect_kv.py:31-94 | for any deliveries drawn from a log with one batch per number, with losses, repeats, reordering and unreadable batches: in a ledger marked complete every event since the log's latest clear, up to the last number taken, is legible; history holds exactly the blocks that some such event's fields store, with those parents and tokens; and present are exactly those that no later event's fields remove |
| PublishedLedger.LegibleRead | experiments/dynamo-upstream/gpu-readiness/collect_kv.py:49-84 | an event is read exactly when its own fields allow it: kind, medium, group, hashes, and for stored ones block size, token count, no adapter or extra keys, and a parent |
| PublishedLedger.StoredAsked | experiments/dynamo-upstream/gpu-readiness/collect_kv.py:71-89 | a stored event asks for exactly its blocks, each with its own 16 tokens and the block before it, or the event's parent, as parent |
| PublishedLedger.RemovedAsked | experiments/dynamo-upstream/gpu-readiness/collect_kv.py:65-70 | a removal asks for exactly its blocks to be dropped |
| PublishedLedger.EventTaken | experiments/dynamo-upstream/gpu-readiness/collect_kv.py:49-89 | an event is taken exactly when its fields allow it and no block of it contradicts the history or another block of it |
| PublishedLedger.EventCounts | experiments/dynamo-upstream/gpu-readiness/collect_kv.py:66-89 | a stored event counts exactly the entries it adds, a removal those it takes away, a clear itself |
| PublishedLedger.Regained | experiments/dynamo-upstream/gpu-readiness/collect_kv.py:53-58 | a batch read in full that holds a clear makes the ledger complete whatever was lost, and the next batch read in full keeps it so |
| PublishedLedger.ReceiptBalance | experiments/dynamo-upstream/gpu-readiness/collect_kv.py:48-94 | without a clear the change in size is what was newly published less what was removed |
| PublishedLedger.PublishedBlocks.constructor | experiments/dynamo-upstream/gpu-readiness/collect_kv.py:22-29 | a new ledger is empty and not complete |
| PublishedLedger.PublishedBlocks.ParseHashes | experiments/dynamo-upstream/gpu-readiness/collect_kv.py:65 | hashes are translated in order, or the first unsupported one raises |
| PublishedLedger.PublishedBlocks.RemoveKeys | experiments/dynamo-upstream/gpu-readiness/collect_kv.py:66-70 | removal of keys one by one, counting those present |
| PublishedLedger.PublishedBlocks.StoreKeys | experiments/dynamo-upstream/gpu-readiness/collect_kv.py:80-89 | the chain is stored key by key; a record that differs from the history ends completeness and raises, keeping what was stored before |
| PublishedLedger.PublishedBlocks.ApplyEvent | experiments/dynamo-upstream/gpu-readiness/collect_kv.py:49-89 | one event with all its refusals, in the order they are made |
| PublishedLedger.PublishedBlocks.Accept | experiments/dynamo-upstream/gpu-readiness/collect_kv.py:31-94 | duplicates change nothing; gaps end completeness; the batch is folded up to the first error; issues are recorded only for batches that end well; the receipt's counts are the fold's |
| PublishedLedger.PublishedBlocks.Receive | experiments/dynamo-upstream/gpu-readiness/collect_kv.py:130-142 | whatever raises is counted as a failure and ends completeness |
| PublishedLedger.CollectBlocks | experiments/dynamo-upstream/gpu-readiness/collect_kv.py:120-142 | the collection loop over a capture, with the exactness of a complete result |
| BlockTrie.CommonPrefix | experiments/dynamo-upstream/parity-run-1/report.py:92-96 | the scan returns the length of the longest common prefix |
| BlockTrie.SharedChunks | experiments/dynamo-upstream/001-speculative-prefill/kv-footprint/reproduce.py:38-46 | two inputs share as many leading whole blocks as fit in their common token prefix |
| BlockTrie.WalkInjective | experiments/dynamo-upstream/001-speculative-prefill/kv-footprint/reproduce.py:38-46 | an id determines the whole path of blocks that leads to it |
| BlockTrie.InternPaths | experiments/dynamo-upstream/001-speculative-prefill/kv-footprint/reproduce.py:43-44 | interning one child makes exactly one more path known |
| BlockTrie.BlockIdentity.Create | experiments/dynamo-upstream/001-speculative-prefill/kv-footprint/reproduce.py:32-36 | a size that is not positive is refused |
| BlockTrie.BlockIdentity.Blocks | experiments/dynamo-upstream/001-speculative-prefill/kv-footprint/reproduce.py:38-46 | the returned ids are those of the input's block prefixes, earlier ids are kept, and no other path becomes known |
| BlockTrie.SharedCount | experiments/dynamo-upstream/001-speculative-prefill/kv-footprint/reproduce.py:38-46 | the block prefixes an input shares with earlier inputs are as many as its longest common block prefix with one of them |
| BlockReuse.SharedIdMeansSharedPrefix | experiments/dynamo-upstream/001-speculative-prefill/kv-footprint/reproduce.py:38-46 | two inputs share an id exactly when all their tokens up to that block are equal |
| BlockReuse.SharedIds | experiments/dynamo-upstream/001-speculative-prefill/kv-footprint/reproduce.py:38-46 | the number of an input's ids among those of earlier inputs is the longest common token prefix in whole blocks |
| BlockReuse.CoverageCountsIds | experiments/dynamo-upstream/001-speculative-prefill/session-cost/reproduce.py:25-31 | refused for a block size that is not positive; otherwise prefix coverage is the block size times the ids that the input without its last token shares with the earlier inputs |
| BlockReuse.EligibleIsCoverage | experiments/dynamo-upstream/parity-run-1/report.py:245-249 | the parity report's eligible ideal is the same number as the session-cost report's prefix coverage at block size 16 |
| BlockReuse.NonmatchingCountsIds | experiments/dynamo-upstream/001-speculative-prefill/session-cost/reproduce.py:34-45 | the reported nonmatching full blocks are the warmup's ids that the follow-up does not have |
| BlockReuse.MeasureImage | experiments/dynamo-upstream/001-speculative-prefill/kv-footprint/reproduce.py:49-63 | every count of a snapshot is the size of the same combination of block-prefix sets |
| BlockReuse.ShowRow | experiments/dynamo-upstream/001-speculative-prefill/kv-footprint/reproduce.py:78-90 | one row's inputs are interned and its two snapshots count the block prefixes of the inputs up to then |
| BlockReuse.Session | experiments/dynamo-upstream/001-speculative-prefill/kv-footprint/reproduce.py:75-94 | two snapshots per row, each counting the block prefixes of the inputs up to then; refused exactly for an empty session or a size that is not positive, so the snapshot's own check never fires |
| BlockReuse.MeasurePictures | experiments/dynamo-upstream/001-speculative-prefill/kv-footprint/reproduce.py:49-63 | a snapshot exists exactly when the current input belongs to the real history, and each of its seven counts is the number of block prefixes of its own kind |
| BlockReuse.PictureBalances | experiments/dynamo-upstream/001-speculative-prefill/kv-footprint/reproduce.py:52-63 | real history is current plus older, warmup history is warmup-only plus shared, and all blocks are real history plus warmup-only |
| BlockReuse.NoWarmupOnly | experiments/dynamo-upstream/001-speculative-prefill/kv-footprint/reproduce.py:75-92 | if every warmup is an exact prefix of its follow-up, no snapshot after a follow-up has a warmup-only block |
| BlockReuse.WarmupOnlyExactly | experiments/dynamo-upstream/001-speculative-prefill/kv-footprint/reproduce.py:49-60 | there is no warmup-only block exactly when some real input covers the whole blocks of each warmup |
| BlockResolution.LineageUnique | experiments/dynamo-upstream/001-speculative-prefill/gpu-readiness/kv_report.py:93-106 | a key has at most one line of ancestors to the root |
| BlockResolution.ClimbFails | experiments/dynamo-upstream/001-speculative-prefill/gpu-readiness/kv_report.py:97-105 | a climb that meets a missing, invalid or already passed key proves that the start has no line to the root |
| BlockResolution.ResolveKey | experiments/dynamo-upstream/001-speculative-prefill/gpu-readiness/kv_report.py:95-111 | terminates on any parent graph; succeeds exactly for keys whose ancestry reaches the root through present, valid blocks; a failure changes nothing |
| BlockResolution.ResolveBlocks | experiments/dynamo-upstream/001-speculative-prefill/gpu-readiness/kv_report.py:93-118 | for every visiting order exactly the rooted keys are resolved, each to the id of its token path, and the others are unresolved |
| BlockResolution.ResolvedLikeInput | experiments/dynamo-upstream/001-speculative-prefill/gpu-readiness/kv_report.py:107-110 | the id of a resolved key is the one its concatenated tokens get as an input |
| BlockResolution.ClassByIds | experiments/dynamo-upstream/001-speculative-prefill/gpu-readiness/kv_report.py:125-138 | classification by ids agrees with classification by token prefixes of the inputs |
| BlockResolution.CountedTotal | experiments/dynamo-upstream/001-speculative-prefill/gpu-readiness/kv_report.py:140-141 | the five classes partition the published entries |
| BlockResolution.Classify | experiments/dynamo-upstream/001-speculative-prefill/gpu-readiness/kv_report.py:121-148 | each published entry is counted in the class its tokens determine: warmup-only exactly when they begin some warmup input and no real input; attributable exactly when the ledger is complete and every entry is rooted |
| TrialCapture.IssuesMeanGaps | experiments/dynamo-upstream/gpu-readiness/collect_kv.py:31-94 | when no batch raises, no sequence issue is recorded exactly when each captured batch is the next in number or a repeat of the one before |
| TrialCapture.CompleteMeansConsecutive | experiments/dynamo-upstream/gpu-readiness/collect_kv.py:31-94 | from an opening clear and with no other clear, the ledger is complete exactly while each captured batch follows the one before |
| TrialCapture.CheckSlice | experiments/dynamo-upstream/001-speculative-prefill/gpu-readiness/kv_report.py:201-218 | accepts exactly the captures that open with the trial's clear, close with its closing clear, hold no other clear and keep to the topic |
| TrialCapture.AcceptAll | experiments/dynamo-upstream/001-speculative-prefill/gpu-readiness/kv_report.py:216-219 | every batch goes to the ledger, and the first that raises ends the report |
| TrialCapture.TrialReport | experiments/dynamo-upstream/001-speculative-prefill/gpu-readiness/kv_report.py:194-242 | fails exactly when the slice is not framed by its clears, a batch raises or there is no real input; otherwise classifies what is published just before the closing clear, and is attributable exactly when the captured batches, the closing one included, follow one another without a gap and every entry has known ancestry; then, for frames of a log with one batch per number, the entries are exactly the log's since its latest clear |
| PrefillLifecycle.MovedBalances | experiments/dynamo-upstream/001-speculative-prefill/recheck-20260929/speculative_prefill.rs:330-362 | each step changes the permits in use and the tracked work by exactly what it takes and gives back |
| PrefillLifecycle.RunInv | experiments/dynamo-upstream/001-speculative-prefill/recheck-20260929/speculative_prefill.rs:60-103 | the invariant holds in every state of every run of any number of owners and warmups |
| PrefillLifecycle.PermitsConserved | experiments/dynamo-upstream/001-speculative-prefill/recheck-20260929/speculative_prefill.rs:47-103 | free permits plus warmups being admitted plus unreturned closures are four in every reachable state, and each tracker counts its unfinished work, so every unreturned closure stays tracked after its owner is gone |
| PrefillLifecycle.OnlyReturnsFree | experiments/dynamo-upstream/001-speculative-prefill/recheck-20260929/speculative_prefill.rs:321-362 | in every run only the return of a blocking closure gives a permit back, one at a time |
| PrefillLifecycle.DispatchSituation | experiments/dynamo-upstream/001-speculative-prefill/recheck-20260929/speculative_prefill.rs:386-396 | in every run a dispatch happens only inside a poll of a warmup that is not winding down, with its preprocessing returned and its context published |
| PrefillLifecycle.DispatchedOnce | experiments/dynamo-upstream/001-speculative-prefill/recheck-20260929/speculative_prefill.rs:205-277 | in every run a warmup dispatches at most once, and never after its wind-down was decided |
| PrefillLifecycle.StoppedBeforeDropped | experiments/dynamo-upstream/001-speculative-prefill/recheck-20260929/speculative_prefill.rs:251-307 | in every run a warmup wound down after it dispatched has been sent exactly one stop by its end, and a dispatched stream is dropped only after one |
| PrefillLifecycle.StopGoesTo | experiments/dynamo-upstream/001-speculative-prefill/recheck-20260929/speculative_prefill.rs:251-268 | which context gets the stop, in every run: the response's exactly when generate had returned as the wind-down was decided, the request's alone when it was pending, and none before a dispatch |
| PrefillProgress.AdmissionDecides | experiments/dynamo-upstream/001-speculative-prefill/recheck-20260929/speculative_prefill.rs:330-333 | in every run an attempt to be admitted takes one permit exactly when one is free, and otherwise ends the warmup |
| PrefillProgress.CancelBars | experiments/dynamo-upstream/001-speculative-prefill/recheck-20260929/speculative_prefill.rs:386-396 | in every run a token cancelled before the last check bars every later dispatch |
| PrefillProgress.CancelStopsWork | experiments/dynamo-upstream/001-speculative-prefill/recheck-20260929/speculative_prefill.rs:321-362 | in every run, once the token is cancelled, a warmup that has not started never takes a permit, and a closure that has not passed its last check yields no tokens |
| PrefillProgress.CanServe | experiments/dynamo-upstream/001-speculative-prefill/recheck-20260929/speculative_prefill.rs:160-402 | every run that leaves a permit free and an owner neither cancelled nor gone can be continued so that one more warmup is dispatched once, drained and finished without a stop, with its permit free again and no other warmup moved |
| PrefillStream.TurnEnds | experiments/dynamo-upstream/001-speculative-prefill/recheck-20260929/speculative_prefill.rs:282-296 | the handed-over part ends with the first finished choice and has none before it |
| PrefillStream.TextJoins | experiments/dynamo-upstream/001-speculative-prefill/recheck-20260929/speculative_prefill.rs:284-287 | the text of a stream is that of its parts, one after the other |
| PrefillStream.Tap.Pass | experiments/dynamo-upstream/001-speculative-prefill/recheck-20260929/speculative_prefill.rs:282-299 | an item is passed on unchanged; text is collected choice by choice and handed over once |
| PrefillStream.WrapStream | experiments/dynamo-upstream/001-speculative-prefill/recheck-20260929/speculative_prefill.rs:160-300 | with the hint the stream comes out unchanged and the text up to the first finish is handed over; without it nothing is |
| PrefillStream.HandedOverOnce | experiments/dynamo-upstream/001-speculative-prefill/recheck-20260929/speculative_prefill.rs:290-294 | reading on never changes what was handed over |
| RollingSession.ResponseIssue | experiments/next-turn-preparation-20261015/source/controller.py:98-133 | no issue exactly when the response is complete, well typed, not empty, with distinct nonempty call ids of functions, and with calls if it says so; an empty response has no calls |
| RollingSession.RollingPreparation.BeforeDispatch | experiments/next-turn-preparation-20261015/source/controller.py:237-244 | every unfinished job has been asked to cancel, and the last attempt is marked as followed by a dispatch |
| RollingSession.RollingPreparation.AfterResponse | experiments/next-turn-preparation-20261015/source/controller.py:246-278 | exactly one attempt row is added; a job starts exactly when there is no issue, preparation is enabled and all earlier jobs are finished, so at most one is ever unfinished |
| RollingSession.AnsweredMeans | experiments/next-turn-preparation-20261015/source/controller.py:414-454 | a history with nothing owed answers each tool call exactly once, in order, right after the message that made it |
| RollingSession.AnswerHasCall | experiments/next-turn-preparation-20261015/source/controller.py:414-454 | every tool answer belongs to a call of an earlier message |
| RollingSession.Session.AnswerCalls | experiments/next-turn-preparation-20261015/source/controller.py:420-465 | each answer carries the next tool result and is appended in call order; a failing result is the last tool message and ends the session with its failure |
| RollingSession.Session.Exchange | experiments/next-turn-preparation-20261015/source/controller.py:375-403 | the request sent is the history as it stands, within the context budget; the response is booked once, also when the controller is cancelled |
| RollingSession.Session.Step | experiments/next-turn-preparation-20261015/source/controller.py:371-465 | one pass of the loop keeps the books; the turn goes on exactly when the reply has no issue and makes calls that succeed, is over when it makes none or is an allowed empty reply, and otherwise the session is cut short for the reason it reports |
| RollingSession.RunSession | experiments/next-turn-preparation-20261015/source/controller.py:361-475 | for every clock, model, tools and job completions: dispatches and responses alternate, in time and within the context; each dispatch sends all that the history holds before its reply; every message is the user prompt, the reply or the tool result whose turn it is; one attempt row per model call names the objection to its reply; the turns are what the replies made of them; and the session ran through all prompts or was cut short by the clock, the context, a reply or a tool, as its outcome says; at most one job is unfinished and at a dispatch it has been asked to cancel |
| CaptureLog.ProducerKeeps | experiments/next-turn-preparation-20261015/source/capture_worker.py:56-84 | every step of writing a record or closing keeps the invariant |
| CaptureLog.WriterKeeps | experiments/next-turn-preparation-20261015/source/capture_worker.py:97-131 | every step of the writer keeps the invariant, also when a write, the summary or the close raises |
| CaptureLog.AlwaysInv | experiments/next-turn-preparation-20261015/source/capture_worker.py:56-150 | the invariant holds in every state of every interleaving |
| CaptureLog.Conserved | experiments/next-turn-preparation-20261015/source/capture_worker.py:86-95 | in every interleaving, between calls attempted = queued + dropped; outside the producer's critical section the reported pending count is what waits plus what the writer holds |
| CaptureLog.Drained | experiments/next-turn-preparation-20261015/source/capture_worker.py:133-135 | in every interleaving, when the drain condition holds nothing waits or is held, and unless a write raised all queued records are in the file |
| CaptureLog.NothingBehindExit | experiments/next-turn-preparation-20261015/source/capture_worker.py:137-141 | in every interleaving, once the writer has left its loop it stays away, nothing is queued and nothing is ever queued again |
| CaptureLog.VouchedFile | experiments/next-turn-preparation-20261015/source/capture_worker.py:137-150 | in every interleaving, a close status that calls itself valid fixes the file: prior lines, the attempted records in order, one summary |
| CaptureLog.ValidatorSound | experiments/next-turn-preparation-20261015/source/validate_capture.py:7-38 | in every interleaving, an accepted file and status contain every attempted record exactly once, in order, from the opening to the closing record, and then the summary |
| CaptureLog.ValidatorComplete | experiments/next-turn-preparation-20261015/source/validate_capture.py:7-38 | in every interleaving, a valid close status on a file that was empty is always accepted |
| CaptureRuns.QueuedExactly | experiments/next-turn-preparation-20261015/source/capture_worker.py:73-84 | in every interleaving a record that serializes is queued exactly when the capture is open and the queue has room, and is otherwise dropped with one failure noted |
| CaptureRuns.CloseStatus | experiments/next-turn-preparation-20261015/source/capture_worker.py:137-150 | in every interleaving the close status counts the records built, queued, dropped, persisted, failed and pending, lists every failure once, reports a timeout exactly when the writer is not done, and is valid exactly when the writer is done and nothing was raised in serializing, enqueueing, writing, the summary, closing or joining |
| CaptureRuns.CloseAccepted | experiments/next-turn-preparation-20261015/source/validate_capture.py:7-38 | in every interleaving a close after a capture without failures, on a file that was empty, is accepted |
| CaptureRuns.AcceptedExactly | experiments/next-turn-preparation-20261015/source/validate_capture.py:7-38 | a file and a status are accepted exactly when the file is the numbered records of one process from start to close and then one summary, and both reports are valid and balance |
| CaptureRuns.AcceptanceReached | experiments/next-turn-preparation-20261015/source/capture_worker.py:29-150 | for every number of records some interleaving ends in a status that counts them all and a file that is accepted |
| PreparationCredit.HiddenTokensBounded | experiments/next-turn-preparation-20261015/source/analyze.py:88-94 | a known divergence, or a shown prefix as long as the target, bounds what unreported tokens can add |
| PreparationCredit.ForegroundCeiling | experiments/next-turn-preparation-20261015/source/analyze.py:68-95 | a number is an upper bound on the whole blocks any same-salt foreground request entered before the first output can share, whatever it did not report, and is attained or 0; otherwise some request is unbounded or has a second choice |
| PreparationCredit.GeneratedMeans | experiments/next-turn-preparation-20261015/source/analyze.py:59-65 | raises exactly on a second choice, is absent exactly when the output is not reported, and otherwise is the output under the text key, else the number key, else empty |
| PreparationCredit.MatchingPreparation | experiments/next-turn-preparation-20261015/source/analyze.py:259-271 | the most whole blocks that one finished preparation, over before the request entered, shares with it |
| PreparationCredit.CompletedPreparations | experiments/next-turn-preparation-20261015/source/analyze.py:220-226 | exactly the preparations that finished with a reported, nonempty output |
| PreparationCredit.CreditExplained | experiments/next-turn-preparation-20261015/source/analyze.py:272-278 | credited tokens are cache hits above the ceiling that a ready preparation holds |
| PreparationCredit.LargestSupported | experiments/next-turn-preparation-20261015/source/analyze.py:272-278 | the rule's minimum is the largest multiple of 16 within the hits that is 0 or that a ready preparation holds |
| PreparationCredit.RequestRow | experiments/next-turn-preparation-20261015/source/analyze.py:252-288 | a row is credited exactly when no error is known, the ceiling is a number and the hits lie within the prompt, and then with all it deserves: the largest supported hit less the ceiling, or 0; its ceiling, matching and excess are exact |
| PreparationCredit.AnalyzeRows | experiments/next-turn-preparation-20261015/source/analyze.py:232-294 | the trial is valid exactly when no error was known, captures were flushed and, without hints, no request hit more than its ceiling; then exactly the creditable rows are credited, each with all it deserves, and otherwise none is |
| PreparationCredit.Withdraw | experiments/next-turn-preparation-20261015/source/analyze.py:343-345 | credits are withdrawn from every row and nothing else changes |
| SseSplitter.BreakIsSeparator | experiments/dynamo-thinking-20261007/analyze.py:38-39 | a break is one of the four blank-line separators, with its length |
| SseSplitter.SplitMore | experiments/dynamo-thinking-20261007/analyze.py:37-39 | splitting a buffer, and then its rest with later bytes, gives the same frames and rest as splitting all bytes at once |
| SseSplitter.CuttingIrrelevant | experiments/dynamo-thinking-20261007/analyze.py:30-39 | two ways of cutting the same bytes give the same frames and the same rest |
| SseSplitter.SplitExact | experiments/dynamo-thinking-20261007/analyze.py:37-39 | splitting cuts at the leftmost separator again and again, and loses nothing else |
| SseSplitter.ValueAt | experiments/dynamo-thinking-20261007/analyze.py:40-48 | the values are those of the parsed frames, in order |
| SseSplitter.Search | experiments/dynamo-thinking-20261007/analyze.py:38 | the search returns the leftmost break |
| SseSplitter.SseEvents | experiments/dynamo-thinking-20261007/analyze.py:30-52 | events, event errors and the truncated-tail verdict depend on the joined bytes alone; each event bears the time of the chunk that completed its frame; one timestamp error is reported for each chunk stamped earlier than its predecessor |
| MissCauses.PartitionCovers | experiments/dynamo-upstream/parity-run-1/report.py:131-150 | every position of the interval lies in exactly one range of a partition |
| MissCauses.ResolveCauses | experiments/dynamo-upstream/parity-run-1/report.py:131-150 | rejected exactly when the ranges are undocumented, empty, outside the interval or overlapping; otherwise a gap-free partition that holds every supplied entry and else only unattributed filler, so each cause has its supplied tokens and other the rest |
| MissCauses.RankMisses | experiments/dynamo-upstream/parity-run-1/report.py:284-294 | each cause's total is the tokens supplied for it, what no range covers goes to other, and the totals add up to the sum of max(0, end - cached) over the usable requests |
| MissCauses.AddTotals | experiments/dynamo-upstream/parity-run-1/report.py:326-332 | each cause's total rises by the lengths of the ranges with that cause |
| WindowOverlap.Union | experiments/next-turn-preparation-20261015/source/overlap.py:12-21 | nonempty windows in order, each ending before the next starts, covering exactly the points of the input |
| WindowOverlap.Overlap | experiments/next-turn-preparation-20261015/source/overlap.py:24-28 | the number of points of the window that at least one other window covers |
| WindowOverlap.OverlapByPoints | experiments/next-turn-preparation-20261015/source/overlap.py:24-28 | only the points of the window that the others cover matter |
| WindowOverlap.OverlapReordered | experiments/next-turn-preparation-20261015/source/overlap.py:24-28 | reordering the other windows does not change the overlap |
| WindowOverlap.OverlapRepeated | experiments/next-turn-preparation-20261015/source/overlap.py:24-28 | repeating one of them does not change it |
| WindowOverlap.OverlapSplit | experiments/next-turn-preparation-20261015/source/overlap.py:24-28 | cutting one of them in two does not change it |
| WindowOverlap.OverlapFraction | experiments/next-turn-preparation-20261015/source/overlap.py:71-91 | the covered share of the known duration, absent when that is zero and otherwise between 0 and 1 |

## Left out

- Floating-point time: the simulator's clock is `real`, so rounding of sums and products is not covered.
- `mean_capped_completion_ms`, `run_study` and the command lines: plain arithmetic and I/O around the simulator.
- Type checks of JSON fields: workloads, events, responses and rows are modelled as already typed; missing and malformed values appear as explicit cases where the code distinguishes them.
- The canonical-prefix, older-entry and ratio fields of the block classification: further counts of the same kind as those proved.
- `kv_bytes_per_token`, byte sizes and ratios of the footprint snapshots: multiplications of the counts that are proved.
- `report` of a captured trial outside its event slice: file hashes, the pairing of requests with the wire capture, per-event snapshots and request metrics.
- Look-up of a session row's rendered inputs: they are given with the row.
- History-rewrite ranges and reuse ratios of the parity report: only the compatible-miss ranking is modelled.
- Descending order of the rankings: only the totals are modelled.
- Decoding of one event frame (UTF-8, data lines, JSON) and base64 of chunks: a function parameter and given bytes.
- Lone carriage returns as line ends, which section 9.2.5 of the WHATWG HTML Living Standard allows, are not separators in the program and so not in the model.
- Lines of a capture file are whole rows: a prior file without a final newline is not modelled, nor are the timing fields of records.
- `Capture` with several producer threads: the counters are only proved for one, which is what the program assumes.
- Rendering and tokenizing inside a blocking closure: only their success, failure and cancellation points are modelled.
- Shutdown of the blocking pool: a queued closure that is discarded counts as returned.
- Liveness of warmups and sessions: timeouts may fire at any moment, so bounds in seconds are not stated.
- `drain` and the preparation coroutine of the session: a job is modelled by when it finishes and whether it was asked to cancel.
- Exceptions inside a session other than cancellation of a model call: they end the session without a further dispatch.
- `native_window` and `request_window`: their results are the optional windows given to the overlap model.
- Prepared and later-matched block totals of the preparation report: further unions of the same prefixes.
- Client-link, salt and parity errors of a trial: given to `PreparationCredit.AnalyzeRows` as the errors already found.
