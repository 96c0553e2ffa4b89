# Verified models of evm-fork-cache

evm-fork-cache is a forked-EVM simulation engine. This project models, in Dafny 4.11, the
parts of it whose correctness is least visible from the code, and proves what they promise:

* **Bulk storage extraction** (`src/bulk_storage.rs`): many `(address, slot)` reads are
  grouped, chunked, packed into `eth_call`s, optionally bundled into `eth_callMany`
  requests, answered by handwritten bytecode injected at each target, decoded, and repaired
  through a fallback. The claim proved is that the result is exactly the point reads.
* **Optimistic verify-and-rerun** (`src/freshness.rs`): simulations run on a snapshot; a
  validator re-fetches what they read, re-runs what changed, and repeats to a fixed point.
  The claim proved is what each verdict means about the real state.
* **Mapping-slot factoring** (`src/mapping_probe.rs`): recorded hash preimages are climbed
  from a storage slot to a base slot; a descriptor rebuilds slots from keys.
* **Call-frame tracing** (`src/tracing.rs`): a stack machine that parses a stream of frame
  hooks into a tree.
* **Transfer deltas** (`src/inspector.rs`): net balance changes from token transfer logs.

## Modules

| module | content |
|---|---|
| `Words` | bytes, 256-bit words, big-endian coding, packing |
| `Evm` | an EVM fragment: opcodes of Appendix H.2 of the Ethereum Yellow Paper with PUSH0 (EIP-3855), SHL and SHR (EIP-145) and EXTCODEHASH (EIP-1052) |
| `Extractor`, `AccountFields`, `ObservationRing` | the injected programs, byte for byte, and what they return |
| `BulkPlan`, `Planner`, `PlanCosts` | configuration, grouping, chunking, greedy packing, call counts |
| `BulkCalls`, `IdealNode`, `BulkFetch` | overrides, decoding, the ideal node, dispatch, `fetch_slots_bulk` |
| `BulkFetcher` | the fallback latch and repair |
| `Fragment` | programs of the EVM fragment, and what their outcome can depend on |
| `Bundling`, `StoragePrograms` | caller-supplied programs, and exactly when sharing a call is invisible to them |
| `AccountQuery`, `Precompiles` | the account-fields query, and storage requested at precompiles |
| `Simulation` | a gas-bounded reader of storage, with the locality lemma |
| `Freshness`, `Validator`, `FreshnessController` | registry, `run_validator`, `FreshnessController::run`, results across policies and runs |
| `MappingProbe` | preimage table, resolver, tracked mappings, the probe |
| `CallTracing` | the tracer, and the parser it is the image of |
| `TransferDeltas` | log decoding, deltas, conservation |

## How the outside world is modelled

* A node is a pair of arbitrary functions (`eth_call`, `eth_callMany`) of an ordinal and a
  request, so equal requests may be answered differently. `Ideal` says that it answers as the
  chain would those calls that only execute injected fragment programs and precompiles, directly
  or as subcalls of the dispatcher; nothing is asked of any other call, and `eth_callMany` may
  still fail at any time. Multicall3 is a map over its subcalls, and its ABI coding any coder that
  decodes what it encodes. Results about counts and about where each result comes from hold for
  every node; results about values for ideal ones.
* A simulation is a strategy from the words read so far to the next action, bounded by gas.
  Locality (a state that agrees on the reads gives the same result) is proved, not assumed.
* The batch fetcher of the validator is an arbitrary function; what it answered is the only
  source of verified values. `Honest` says that the values it gives are those of one fixed
  function; an honest fetcher may still fail or omit slots. The cancel flag is an arbitrary function of the checkpoint number.
* keccak is an arbitrary function.

## Where the code and its documentation differ

The model follows the code in each case.

* `src/bulk_storage.rs:58-61` says that slots requested at a precompile fail the
  response-length check. They do so exactly when the precompile's output is missing or has
  another length (`Precompiles.PrecompileErrorsIff`). From the address and the number of slots
  alone: the identity precompile is never caught and reports each slot key as that slot's value,
  and a hash precompile is caught exactly when the number of slots differs from the number of
  words it returns (`Precompiles.CaughtIff`, `Precompiles.EchoIsMisread`).
* `run_storage_programs` is documented to batch programs with distinct targets into one call, as if
  that did not matter. A bundled program is called by the dispatcher instead of the sender and
  sees the other injected codes (`StoragePrograms.BundlingShowsThroughCaller`,
  `StoragePrograms.BundlingShowsThroughHashes`). All fragment programs at a target behave bundled
  as alone if and only if no other override changes a code hash and the sender is the dispatcher
  itself (`Bundling.AllAlikeIff`); for programs that do not read their caller the hashes alone
  decide (`Bundling.CallerFreeAlikeIff`). Outside the fragment EXTCODESIZE, EXTCODECOPY and calls
  into another bundled target show the bundle as well.
* The comment at `src/bulk_storage.rs:915-916` counts a batch toward the latch when everything
  in it failed at the provider level; the code counts any batch without a success that has at
  least one provider error. Two batches in which one call is refused and another answered with no
  bytes latch the fetcher, where the documented counter would still be zero
  (`BulkFetcher.MixedBatchesLatch`); the two counters agree throughout a sequence of calls if and
  only if no attempted batch without a success mixes provider errors with others
  (`BulkFetcher.DocumentedIff`).
* The comment at `src/mapping_probe.rs:479-480` calls the base the numerically smaller word; when
  both halves have the same byte count it is the first half (`MappingProbe.SmallerIsBaseIff`,
  `MappingProbe.TieTakesLarger`).
* In `resolve`, the arm that reports a nested layout for an unrecorded location is never taken
  (`MappingProbe.EndsRecorded`).

## Model

| member | source | states |
|---|---|---|
| `Extractor.ExtractorRuns` | src/bulk_storage.rs:126-131 | for every storage and every calldata of n words, either extractor halts after exactly 15n + 11 steps, not earlier, and returns the n loaded values packed in order |
| `Extractor.ExtractorReturnsLoads` | src/bulk_storage.rs:120-131 | the outcome of calling either extractor is the packed list of storage values of the keys |
| `Extractor.ExtractorsAgree` | src/bulk_storage.rs:126-131 | the PUSH0 and pre-Shanghai programs are observationally equal |
| `AccountFields.AccountFieldsReturns` | src/bulk_storage.rs:1130-1131 | for every list of n padded addresses the program halts and returns balance and code hash interleaved, 2n words |
| `AccountQuery.SlicingRecovers` | src/bulk_storage.rs:1178-1190 | the `i*64` slicing recovers exactly the pair the program wrote for address i |
| `AccountQuery.PadAddresses` | src/bulk_storage.rs:1160-1164 | twelve zero bytes and the address, concatenated, are the addresses as packed words |
| `AccountQuery.FetchAccountFieldsBulk` | src/bulk_storage.rs:1152-1191 | for any node a success exactly when the reply has 64 bytes per address, the fields being its slices, and a provider error exactly when the call is refused; for an ideal node the true balance and code hash, except the host's own code hash |
| `Precompiles.PrecompilePart` | src/bulk_storage.rs:58-61 | alone or inside a multicall, the results at a precompile are its decoded output, whatever the other targets are |
| `Precompiles.PrecompileErrorsIff` | src/bulk_storage.rs:58-61 | all slots at a precompile surface as errors if and only if its output is missing or has another length, in single-target calls and multicalls |
| `Precompiles.CaughtIff` | src/bulk_storage.rs:58-61 | the length check catches a hash precompile exactly when the slot count differs from its word count, and the identity precompile never |
| `Precompiles.EchoIsMisread` | src/bulk_storage.rs:58-61 | the identity precompile makes every slot key come back as its own value, in any call |
| `StoragePrograms.BundlingShowsThroughHashes` | src/bulk_storage.rs:1037-1065 | a concrete bundle whose member returns an injected code hash, and the deployed one alone |
| `StoragePrograms.BundlingShowsThroughCaller` | src/bulk_storage.rs:1037-1065 | a concrete bundle whose member returns the dispatcher, and the sender alone |
| `Bundling.TransparentRunsAsSolo` | src/bulk_storage.rs:1009-1014 | a program returns bundled what it returns alone when no instruction it contains can see a difference |
| `Bundling.CallerFreeAlikeIff` | src/bulk_storage.rs:1009-1014 | all fragment programs that do not read their caller do so if and only if no other override changes a code hash |
| `Bundling.AllAlikeIff` | src/bulk_storage.rs:1009-1014 | all fragment programs do so if and only if, besides, the sender is the dispatcher |
| `Fragment.FragmentSuffices` | src/bulk_storage.rs:964-986 | no execution of a fragment program meets an opcode outside the fragment |
| `Fragment.SameOutcome` | src/bulk_storage.rs:964-986 | the outcome depends on caller and code hashes only through instructions the program contains |
| `Fragment.ExtractorsInFragment` | src/bulk_storage.rs:126-131 | both extractors are fragment programs |
| `IdealNode.ExtractorChoice` | src/bulk_storage.rs:248-255 | the configured program is a fragment program, and has no PUSH0 exactly when the pre-Shanghai one is asked for |
| `Fragment.AccountFieldsInFragment` | src/bulk_storage.rs:1130-1131 | so is the account-fields program |
| `Fragment.RingInFragment` | examples/bulk_storage_bench.rs:734-735 | and the ring loader |
| `ObservationRing.RingReturnsObservations` | examples/bulk_storage_bench.rs:734-735 | for every storage the program returns as many words as bits 200 to 215 of slot 0 say, read from slot 8 on, in order |
| `ObservationRing.RingMatchesExtraction` | examples/bulk_storage_bench.rs:750-767 | its output equals slot-list extraction of the ring's slots |
| `BulkPlan.NormalizedIsSafe` | src/bulk_storage.rs:227-246 | normalizing is idempotent, leaves budgets of at least one, makes a full call or request fit the body budget, lowers a slot budget only as far as that needs, keeps every budget that was usable, and changes neither threshold, extractor nor dispatch |
| `BulkPlan.SlotCount` | src/bulk_storage.rs:382-387 | a plan's slot count is the total over its targets |
| `BulkPlan.GroupingConserves` | src/bulk_storage.rs:399-409 | grouping by first-seen address keeps the multiset of requested pairs |
| `BulkPlan.FirstSeenGrows` | src/bulk_storage.rs:399-409 | later requests only append to the order of addresses |
| `Planner.GroupByAddress` | src/bulk_storage.rs:399-409 | the loop yields distinct addresses in first-seen order, each with its slots in request order |
| `Planner.SplitIntoChunks` | src/bulk_storage.rs:411-430 | full chunks and all chunks of the dispatcher become dedicated calls, the rest are remainders |
| `Planner.ChunkingConserves` | src/bulk_storage.rs:411-430 | dedicated calls and remainders together cover exactly the groups |
| `Planner.RemaindersDistinct` | src/bulk_storage.rs:411-430 | at most one remainder per address, so packed targets are distinct |
| `Planner.FlushPlan` | src/bulk_storage.rs:435-445 | one target is sent directly, several as a multicall, in order |
| `Planner.PackRemainders` | src/bulk_storage.rs:432-458 | packing keeps the remainders in order, every plan is within budget, and a plan closes only when the next target does not fit |
| `Planner.PlanCalls` | src/bulk_storage.rs:398-459 | the planned pairs are the requests as multisets; every plan is non-empty and within the slot budget; every multicall has two or more distinct targets within the target budget and never the dispatcher |
| `PlanCosts.NextFitBound` | src/bulk_storage.rs:432-456 | k packed calls over t slots and r remainders: k - 1 is the sum of two counts, one at most 2t/(M+1), the other at most r/T |
| `PlanCosts.PlannedCallCount` | src/bulk_storage.rs:761-763 | n requests over g addresses take at least n/M and at most n/M + 2n/(M+1) + g/T + 2 calls, M and T being the normalized slot and target budgets |
| `PlanCosts.GroupPlansForCallMany` | src/bulk_storage.rs:644-664 | groups concatenate to the plans in order, each within budget or a singleton, and each group with the next plan overflows |
| `PlanCosts.EveryBodyFits` | src/bulk_storage.rs:227-246 | under a normalized configuration every bundled request stays inside the body budget |
| `BulkCalls.PackSlotsCalldata` | src/bulk_storage.rs:259-265 | the loop produces the packed words |
| `BulkCalls.UnpackOfPack` | src/bulk_storage.rs:272-283 | decoding inverts packing |
| `BulkCalls.SubCalls` | src/bulk_storage.rs:289-299 | one subcall per target, in order, failure allowed, with that target's packed keys |
| `BulkCalls.DecodePlanKeys` | src/bulk_storage.rs:497-527 | whatever bytes come back, decoding yields exactly one result per requested pair, in request order |
| `BulkCalls.DecodedAt` | src/bulk_storage.rs:303-360 | for any plan, coder and reply, position by position: the word at the slot's place in its target's own return data when that has 32 bytes per slot, in a multicall only if the reply decodes to one entry per target and that entry succeeded; an error in every other case |
| `BulkCalls.SuccessIsBacked` | src/bulk_storage.rs:497-527 | no reported success without such data |
| `BulkCalls.PlanFailureKeys` | src/bulk_storage.rs:530-549 | a failed call yields exactly one error per requested pair, in request order |
| `IdealNode.MultiOverrides` | src/bulk_storage.rs:463-486 | a multicall's overrides give the dispatcher the Multicall3 runtime and every target the extractor |
| `IdealNode.CallAnswersPointReads` | src/bulk_storage.rs:463-527 | under any override map that serves the plan, the call only runs fragment programs and precompiles, and every decoded result off the precompiles is the point read, whatever else the plan targets |
| `BulkFetch.ExecutePlanKeys` | src/bulk_storage.rs:551-570 | one result per requested pair of a call, provider errors included |
| `BulkFetch.MergedOverridesServe` | src/bulk_storage.rs:596-604 | the merged map of a bundle agrees with each plan's own map on all of that plan's addresses |
| `BulkFetch.BuildBundle` | src/bulk_storage.rs:596-604 | the loop builds one transaction per plan, in order, and the merged override map |
| `BulkFetch.ExecutePlansCallMany` | src/bulk_storage.rs:586-640 | an accepted bundle yields one result per pair in order, each decoded from its own plan's entry; it is refused only for a failed request or a wrong number of entries |
| `BulkFetch.RunJobs` | src/bulk_storage.rs:704-749 | whatever order the jobs complete in, with or without re-dispatch, one result per pair, each accounted for by the node's answers |
| `BulkFetch.DispatchPlans` | src/bulk_storage.rs:696-753 | one result per planned pair, each decoded from the reply to a call or a bundle with its own plan; per-call dispatch and hash-pinned blocks use plain calls only; at a numbered block a node that accepts bundles is asked for everything but the dispatcher's own slots in bundles |
| `BulkFetch.ReportedTrue` | src/bulk_storage.rs:51-52 | results the answers of an ideal node account for are true at every address that is not a precompile |
| `BulkFetch.SuccessesInReplies` | src/bulk_storage.rs:497-527 | for every node, each success is the word at its slot's place in some reply to a call or bundle with its own plan |
| `BulkFetch.IgnoredOverridesFail` | src/bulk_storage.rs:53-57 | a provider that ignores the overrides and answers with no bytes yields errors only |
| `BulkFetch.RefusedReports` | src/bulk_storage.rs:566-569 | a node that refuses everything makes every result a provider error |
| `BulkFetch.RepliedReports` | src/bulk_storage.rs:566-569 | a node that answers every call, with whatever bytes, causes no provider error |
| `BulkFetch.FetchSlotsBulk` | src/bulk_storage.rs:677-754 | for every node, request list and configuration one result per requested pair with multiplicity, each accounted for by the node's answers and each success in a reply; for an ideal node the point read at every address that is not a precompile, whatever else is requested, and a permutation of the point reads when no request is at one |
| `BulkFetcher.Repair` | src/bulk_storage.rs:936-951 | the loop keeps the successes and sends exactly the failed pairs to the fallback, once, if there are any |
| `BulkFetcher.SuccessesKept` | src/bulk_storage.rs:936-943 | every success is kept, each once and in order |
| `BulkFetcher.FailuresSent` | src/bulk_storage.rs:936-950 | exactly the failed pairs go to the fallback, each once and in order; no successful pair is asked for again |
| `BulkFetcher.RepairCounts` | src/bulk_storage.rs:934-951 | repair keeps one result per request, given a fallback that does |
| `BulkFetcher.Fetcher.constructor` | src/bulk_storage.rs:864-883 | the configuration is normalized and the counter starts at zero |
| `BulkFetcher.Fetcher.Fetch` | src/bulk_storage.rs:883-952 | which path a batch takes, how the counter moves, what the attempt can have returned, one result per request on every path, and true values from an ideal node with an exact fallback |
| `BulkFetcher.CounterBounds` | src/bulk_storage.rs:876-932 | over every sequence of calls the counter never exceeds 2, and without a fallback it stays 0 |
| `BulkFetcher.LatchSticky` | src/bulk_storage.rs:870-876 | once 2, the counter stays 2 and no later batch attempts bulk extraction |
| `BulkFetcher.LatchIff` | src/bulk_storage.rs:915-932 | it is 2 exactly when there is a fallback and two attempts without success but with a provider error have no successful attempt between them |
| `BulkFetcher.Serve` | src/bulk_storage.rs:883-951 | over any sequence of batches, what became of each, with every attempt's results accounted for by the node; the fetcher is latched exactly when it has a fallback and two of its attempts struck with no success between |
| `BulkFetcher.RefusalLatches` | src/bulk_storage.rs:870-876 | an endpoint that refuses every request latches the fetcher at its second eligible batch, and not before |
| `BulkFetcher.RepliesNeverLatch` | src/bulk_storage.rs:915-932 | an endpoint that answers every call never moves the counter |
| `BulkFetcher.DocumentedIff` | src/bulk_storage.rs:915-922 | the counter is the documented one throughout a sequence of calls if and only if no attempted batch without a success mixes provider errors with others |
| `BulkFetcher.DocumentedLatchIff` | src/bulk_storage.rs:870-876 | without such batches the latch is set exactly by two attempts that failed entirely at the provider, no success between |
| `BulkFetcher.MixedBatchesLatch` | src/bulk_storage.rs:915-932 | two concrete mixed batches latch a fetcher whose documented counter is still zero |
| `StoragePrograms.SelectBundle` | src/bulk_storage.rs:1020-1029 | the bundle is exactly the first program of each target other than the dispatcher |
| `StoragePrograms.BundleOverridesServe` | src/bulk_storage.rs:1038-1057 | the shared map gives every bundled target its own program and the dispatcher its runtime |
| `StoragePrograms.BundleResultIff` | src/bulk_storage.rs:1066-1099 | a bundled program succeeds with exactly its own successful entry of a reply with one entry per program; a provider error exactly when the request is refused |
| `StoragePrograms.SoloResultIff` | src/bulk_storage.rs:989-1007 | a program sent alone succeeds with exactly the reply to its own injected call |
| `StoragePrograms.BundleAnswers` | src/bulk_storage.rs:1037-1099 | a bundled program's entry is what the program returns as a subcall under the shared overrides |
| `StoragePrograms.RunStoragePrograms` | src/bulk_storage.rs:1015-1109 | the bundle is the first program of every target but the dispatcher unless there are fewer than two; every index is resolved exactly once in input order, so the final `expect` cannot fire; with an ideal node fragment programs return what they return as sent, and what they return alone when nothing can show them the bundle |
| `Simulation.Locality` | src/freshness.rs:1241-1262 | states that agree on everything a run read give the same run |
| `Simulation.HashLocality` | src/freshness.rs:1258-1271 | a run that missed no block hash is the same whatever the missing hashes are |
| `Simulation.SimReports` | src/freshness.rs:1385-1412 | status, gas, logs, output and read set of the report, case by case |
| `Freshness.VolatileIff` | src/freshness.rs:291-312 | a slot is live exactly when what governs it, its own entry before its account's before the default, is `Volatile` or a passed validity |
| `Freshness.AbsentReadsZero` | src/freshness.rs:1190 | a slot absent from the snapshot reads as zero and has changed exactly when its value is not |
| `Freshness.ObservedCounts` | src/cache/slot_observations.rs:228-260 | the first observation is a baseline; later ones count, and a different value is a change |
| `Freshness.CollectFetchResults` | src/freshness.rs:1075-1097 | success has every requested slot; a failure names a fetch error or a slot that was really omitted |
| `Validator.CarryOver` | src/freshness.rs:1235-1238 | a request that read no changed slot has, unre-run, the result it would have on the changed state |
| `Validator.RerunAffected` | src/freshness.rs:1233-1286 | after a pass every result is current, the re-run set is exactly the affected requests, and the candidates are exactly the unverified live reads |
| `Validator.DiffAndObserve` | src/freshness.rs:1183-1204 | each slot of a batch is observed once and the changed set grows by exactly the differences |
| `Validator.ValidationRound` | src/freshness.rs:1224-1357 | a round asks only for live slots not fetched before, the changed set only grows, and it settles only on results that can be trusted |
| `Validator.FixedPoint` | src/freshness.rs:1218-1357 | the loop ends within the round cap, with trusted results or a justified exit |
| `Validator.ListChanges` | src/freshness.rs:1363-1364 | every changed slot is listed exactly once, with the old and the new value |
| `Validator.RunValidator` | src/freshness.rs:1100-1377 | an accepted verdict returns, for each request, its simulation on the snapshot with every verified slot at its fetched value, all live reads verified, no block hash missed; an `Unverified` one gives a reason that really holds of the fetcher's answer, a re-run or the round cap; at most 9 disjoint batches; every value from the fetcher; effects only with a correction; the cancel flag obeyed at each checkpoint; agreement is confirmed |
| `Validator.ChangeIsAnswered` | src/freshness.rs:1206-1377 | with a complete and honest fetcher, no block-hash reader and no cancellation, a changed slot among those verified first leads to `Corrected`, unless a re-run really fails or a live read really remains unverified at the cap; without a change the verdict confirms |
| `FreshnessController.Controller.Run` | src/freshness.rs:917-1033 | drains every correction in order, then builds an input whose results and read sets are those of the snapshot and whose verify set is the policy's choice among the candidates; an error names a request that cannot execute |
| `FreshnessController.CandidatesAre` | src/freshness.rs:976-990 | the candidates are exactly the live slots some request predicts |
| `FreshnessController.Controller.DrainPending` | src/freshness.rs:924-938 | the queue is applied in order and emptied |
| `FreshnessController.AcceptedMeansTrue` | src/freshness.rs:1100-1377 | with an honest fetcher, which may still fail at times, an accepted verdict returns each request's simulation on the true state with the true block hashes |
| `FreshnessController.PolicyIndependence` | src/freshness.rs:396-399 | two policies whose verdicts are accepted against one fetch function give the same final results |
| `FreshnessController.TwoPolicies` | src/freshness.rs:917-1033 | two controllers with different policies on one cache and an honest fetcher give the same final results whenever neither verdict is `Unverified` |
| `FreshnessController.CorrectionsCompleteTheState` | src/freshness.rs:924-938 | writing the corrections back gives the verified state, slot by slot |
| `FreshnessController.Converges` | src/freshness.rs:1206-1208 | after a correction the next run of the same requests starts with the corrected results and nothing left to correct |
| `FreshnessController.TwoCycles` | src/freshness.rs:917-1033 | under `AlwaysVerify` or `NeverVerify`, with unchanged registry, clock and fetched values, a corrected cycle is followed by a confirmed one with the corrected results |
| `MappingProbe.SigIsByteLength` | src/mapping_probe.rs:529-535 | the significant-byte count is the byte length of the number |
| `MappingProbe.KnownIff` | src/mapping_probe.rs:523-527 | a word is known exactly when its low 20 bytes are those of a known word |
| `MappingProbe.SplitKeySlot` | src/mapping_probe.rs:468-491 | the two halves are kept in their order; high confidence exactly when one half alone is known, and then that half is the key |
| `MappingProbe.MediumPicksSmaller` | src/mapping_probe.rs:481-486 | decided by byte counts, the base is numerically smaller than the key |
| `MappingProbe.SmallerIsBaseIff` | src/mapping_probe.rs:478-489 | with no anchor the base is the numerically smaller half if and only if the byte counts differ or the first half is not the larger |
| `MappingProbe.TieTakesLarger` | src/mapping_probe.rs:479-488 | a concrete tie in which the larger half becomes the base |
| `MappingProbe.GroundedIff` | src/mapping_probe.rs:393-417 | the loop terminates if and only if the climb never revisits a location |
| `MappingProbe.AcyclicGrounds` | src/mapping_probe.rs:393-417 | in an acyclic table it terminates from every slot |
| `MappingProbe.GroundedIsAcyclic` | src/mapping_probe.rs:393-417 | and a table in which it terminates from every slot is acyclic |
| `MappingProbe.KeysWithinTable` | src/mapping_probe.rs:389-421 | at most one key per recorded preimage |
| `MappingProbe.EndsRecorded` | src/mapping_probe.rs:394-403 | a climb from a recorded slot ends at a recorded location |
| `MappingProbe.Resolve` | src/mapping_probe.rs:383-466 | the loop computes the classification of the location where the climb stops, with the keys met on the way |
| `MappingProbe.ResolvedExplains` | src/mapping_probe.rs:383-466 | for every layout the slot is rebuilt from the reported base by hashing the key chain inner to outer; a nested chain starts from the hash of the base exactly when the confidence is `Heuristic` |
| `MappingProbe.NestedIsFound` | src/mapping_probe.rs:405-430 | a chain of recorded hashes that ends in an anchored entry resolves to all its keys in order, the entry's base and a nested layout |
| `MappingProbe.PointerIsFound` | src/mapping_probe.rs:440-448 | a chain that ends in a 32-byte preimage without a known address resolves to its keys and the hashed word |
| `MappingProbe.PackedIsFound` | src/mapping_probe.rs:431-439 | one that names a known address resolves to that address as last key and the seed |
| `MappingProbe.OpaqueIsFound` | src/mapping_probe.rs:449-452 | one of any other length is opaque there |
| `MappingProbe.SlotFor` | src/mapping_probe.rs:193-218 | the buffer filled half by half is the entry's preimage |
| `MappingProbe.TrackedRebuilds` | src/mapping_probe.rs:144-158 | whenever an access can be tracked, at any confidence, `slot_for` of its key is the original slot |
| `MappingProbe.TrackedIff` | src/mapping_probe.rs:144-158 | a recorded slot can be tracked exactly when it is a single-level entry or a packed word of a known address |
| `MappingProbe.AnchoredIff` | src/mapping_probe.rs:405-430 | a slot reads as a single-level entry with an anchored key if and only if its preimage is that key and base in that order, the halves are recorded together or not at all, and the key alone is known |
| `MappingProbe.RebuiltIsTracked` | src/mapping_probe.rs:144-218 | a slot rebuilt for a recognisable key, once its hash is recorded, factors back into that key and mapping, packed seeds included |
| `MappingProbe.ReadMemory` | src/mapping_probe.rs:495-509 | memory past its end reads as zero |
| `MappingProbe.HashStorageProbe.Step` | src/mapping_probe.rs:336-366 | a hash step records exactly its memory region of 1 to 4096 bytes, offset on top of the stack and size below, under its hash, and no other step records any; so every recorded preimage hashes to its key |
| `MappingProbe.HashStorageProbe.StepEnd` | src/mapping_probe.rs:368-375 | a pending load is recorded once with the value on top of the stack |
| `MappingProbe.HashStorageProbe.Accesses` | src/mapping_probe.rs:326-332 | exactly the loads of recorded hashes are factored, one access each and in order, each explaining its slot |
| `CallTracing.CallTracer.PushFrame` | src/tracing.rs:182-200 | a new frame opens at the current depth with no children |
| `CallTracing.CallTracer.PopFrame` | src/tracing.rs:207-238 | the innermost frame is finalized into its parent or as root; with none open nothing changes |
| `CallTracing.CallTracer.OnCall` | src/tracing.rs:270-279 | the `call` hook takes the specified step |
| `CallTracing.CallTracer.OnCallEnd` | src/tracing.rs:281-286 | the `call_end` hook takes the specified step and records the frame with the status, gas and output it is given |
| `CallTracing.CallTracer.OnCreate` | src/tracing.rs:288-299 | the `create` hook takes the specified step |
| `CallTracing.CallTracer.OnCreateEnd` | src/tracing.rs:301-311 | the `create_end` hook does likewise, with the created address if there is one |
| `CallTracing.EnterOpens` | src/tracing.rs:270-299 | an entered frame is opened with the kind, caller, callee, value and input it is given, at the current depth |
| `CallTracing.ExitRecords` | src/tracing.rs:255-311 | a left frame is recorded as `Success` exactly for an ok result, `Revert` exactly for a revert and `Halt` otherwise, with the fields it was opened with |
| `CallTracing.TraceFields` | src/tracing.rs:97-123 | every field of a frame's trace in terms of what its hooks were given, children in order one level deeper |
| `CallTracing.FrameRuns` | src/tracing.rs:182-238 | from any state, the events of a frame tree attach exactly its trace, with the right depths and child order, to the top frame or as root |
| `CallTracing.TracerParses` | src/tracing.rs:182-238 | for every event stream the tracer holds the image of the parse of that stream |
| `CallTracing.ParseOfPrint` | src/tracing.rs:182-238 | every parse state is recovered from its printed events |
| `CallTracing.PrintOfParse` | src/tracing.rs:182-238 | every event stream, less its surplus exits, is the print of its parse |
| `CallTracing.StackHeight` | src/tracing.rs:157-200 | the stack holds exactly the unmatched enters, each at its own depth |
| `CallTracing.UnmatchedIsLargestSuffix` | src/tracing.rs:157-238 | the unmatched enters are the largest excess of enters over exits in any suffix of the stream |
| `CallTracing.SurplusIgnored` | src/tracing.rs:214-218 | dropping surplus exits anywhere in a stream changes nothing |
| `CallTracing.RootIsLastFrame` | src/tracing.rs:233-237 | complete executions leave the trace of the last top-level frame as root |
| `TransferDeltas.ParseOfEvent` | src/inspector.rs:152-186 | the standard event layout is read back, whatever topics or data follow it |
| `TransferDeltas.ParseIff` | src/inspector.rs:152-186 | a log decodes to a transfer if and only if it is the `Transfer` event of that transfer: signature, low 20 bytes of two topics, first data word, emitting token |
| `TransferDeltas.DecodedAre` | src/inspector.rs:201-209 | the decoded list holds one transfer for every event among the logs, in order, and nothing else |
| `TransferDeltas.TransferInspector.OnLog` | src/inspector.rs:201-209 | every log is kept, and a transfer is added exactly when the log is a `Transfer` event, namely that event's |
| `TransferDeltas.TransferInspector.Clear` | src/inspector.rs:146-149 | both lists are emptied |
| `TransferDeltas.TransferInspector.BalanceDeltas` | src/inspector.rs:88-105 | the keys are exactly the tokens the owner transacted in, each at received minus sent modulo 2^256 |
| `TransferDeltas.TransferInspector.BalanceDeltasForTokens` | src/inspector.rs:130-142 | the same, restricted to the given tokens |
| `TransferDeltas.ParseReceiptDeltas` | src/inspector.rs:217-234 | the same characterization from receipt logs |
| `TransferDeltas.BothWays` | src/inspector.rs:201-234 | receipt parsing and the inspector fed with the same logs give equal maps |
| `TransferDeltas.SignedDeltaIff` | src/inspector.rs:84-105 | a reported delta is the true net change if and only if that change fits a signed 256-bit integer |
| `TransferDeltas.SelfTransfersNetZero` | src/inspector.rs:18-20 | transfers from an owner to itself net to zero |
| `TransferDeltas.DeltasConserve` | src/inspector.rs:88-105 | over any duplicate-free list of accounts that includes every party of a token, the reported deltas sum to zero modulo 2^256 |

## Left out

- Gas and the 1024-item stack limit: an ideal node runs fragment programs with enough of both.
- Opcodes outside the fragment: statements about caller-supplied programs require every instruction to be in it.
- Calldata that is not a whole number of words, which the packers never produce, and calldata of 2^256 bytes or more.
- ABI coding, keccak and the Multicall3 bytecode: arbitrary functions and a map over subcalls.
- RPC plumbing, runtimes, logging, timing and the texts of error messages; errors keep their kind only.
- `max_concurrent_calls`: jobs of one fetch complete in an arbitrary order, one at a time, so a limit on how many overlap has no effect.
- Overlapping calls of one bulk fetcher: a late success may reset a latched counter, so the latch results are about calls that do not overlap.
- The block is used only to choose the dispatch mode; every answer of a node is at that block.
- The block-context extractor, a straight-line program.
- Account-level freshness (`ConfirmedFull`, changed accounts): not produced by `run_validator`; balances, nonces and code are part of the request's program.
- The set of slots a simulation loaded is taken to be the access list the validator is given.
- Registry setters, the clocks, the `ObservationDriven` heuristic and overflow of the 32- and 64-bit observation counters; any other policy is an arbitrary selection function.
- The `SpeculativeSim` handle and its drop: cancellation is an arbitrary flag at the checkpoints. Validators of two runs that overlap in time are not modelled.
- Simplifications of the cache, snapshot and overlay: a total storage map with absent slots at zero, block hashes, and slot writes.
- `keyed_by`, `slots_for`, `slots_returning` and the counting helpers of the probe: filters over what is modelled.
- `InspectorStack`: it forwards each hook to both inspectors.
- Overflow panics of `I256` arithmetic in debug builds: arithmetic wraps, as in release builds; `TransferDeltas.SignedDeltaIff` says when the result is the true net.
- The reactive runtime, cold start, event pipeline, state updates, bundles, access lists, deployment helpers and persistence.
