# Verified model of the megakernel lab

This project models the decode-scheduling core of the megakernel lab and proves its central promises:

- the persistent Python runtime over the paged KV cache: prefill, speculative propose, verify and commit with
  serial fallback, adaptive block size, eviction, rehydration and sparse selection;
- the persistent mega-kernel as a concurrent protocol of resident blocks that share device memory, a counter of
  finished blocks and a shutdown flag, together with its stage helpers, the fused verify-and-commit kernel and the
  host-driven baseline step;
- trace replay admission over the device ring queue;
- the tier, eviction, sparse selection, gather, planning, staging and scheduling kernels.

`dafny verify dfyconfig.toml` checks everything.

## How it is built

Every object that the repository updates in place is a class or an array here, and every operation on it is a method
with the source's loops and branches. Each method is proved equal to a step on plain values, and the results are
lemmas about those values over all inputs, all runs or all interleavings.

- **Cache.** `KvCacheModel` holds the cache as a value: pages, LRU order, next id, statistics. `KvCache.KVCache` also
  keeps the page table and the four byte and token counters, and its `Valid()` says that they agree with the pages.
  `KvTable`, `KvCounters` and `KvAllocation` carry the proofs; `KvLaws`, `KvRecency`, `KvTiling` and `KvEffects` state
  the laws.
- **Runtime.** `RuntimeModel.Step` is one elementary step of `run()`: a loop test, one prefill, one enqueue, one
  decode or one settled result. `Iterate(cfg, s, k)` is the state after `k` steps, so a statement over all `k` holds
  in every reachable state. `Runtime.PersistentDecodeRuntime.Run` is the loop over the objects and follows it.
  `BlockWalk` and `BlockPace` say where decode blocks end and how large they are, `RuntimeLossless` compares runs with
  serial decode, `RuntimeQueues` says who is next, and `RuntimeReads`, `RuntimeUse` and `RuntimeReports` say what is
  read, kept and reported.
- **Mega-kernel.** `MegaKernel.Run(program, start, schedule)` executes any sequence of block ids, one stage, count
  or poll at a time. A statement over all `schedule` holds for every interleaving. `KernelCode` is the loop as code
  over the arrays.
- **Trace replay.** `TraceModel.After(w, k)` is the replay after `k` steps of workload `w`; `Makespan` and
  `ReplayService` speak of whole replays.

Acceptance rates and thresholds are real numbers; all integers are unbounded. The C remainder of a negative
number is modelled (`DeviceTypes.Rem`); Python's negative slice bounds are too (`Requests.Prefix`).

## Model

| member | source | states |
|---|---|---|
| KvTable.EachPageListedOnce | src/megakernel_lab/kv_cache.py:191-225 | What the cache's invariant gives: a page is in a list of the page table exactly if it is live and that list is its own request's and layer's; no list is empty or repeats a page |
| KvCache.KVCache.constructor | src/megakernel_lab/kv_cache.py:57-77 | A new cache satisfies the invariant and is empty |
| KvCache.KVCache.EvictSinglePage | src/megakernel_lab/kv_cache.py:149-167 | Removes exactly one page from pages, table, LRU order and counters, and counts it; the invariant holds again |
| KvCache.KVCache.EvictLru | src/megakernel_lab/kv_cache.py:122-147 | The two scans return and remove exactly the first n of: unpinned drafts in LRU order, then the other unpinned pages in LRU order |
| KvEffects.EvictionIsCounted | src/megakernel_lab/kv_cache.py:149-167 | The eviction count grows by the number of pages that went, and the evicted bytes by the live bytes that went with them |
| KvLaws.EvictionPolicy | src/megakernel_lab/kv_cache.py:122-147 | No victim is pinned; a non-draft goes only after every unpinned draft; among pages of one kind the older one goes first |
| KvCache.KVCache.CanAllocatePages | src/megakernel_lab/kv_cache.py:100-120 | True exactly if nothing is needed or free plus unpinned pages cover the need |
| KvCache.KVCache.EnsureCapacity | src/megakernel_lab/kv_cache.py:178-189 | Evicts the deficit, and raises exactly if the need is still not covered |
| KvCache.KVCache.AllocateForRequest | src/megakernel_lab/kv_cache.py:227-264 | The whole state after allocation, raising or not; the invariant holds in both cases, and the returned map is the request's page lists |
| KvCache.KVCache.CommitTokens | src/megakernel_lab/kv_cache.py:266-282 | Allocation followed by marking all of the request's pages on its layers committed |
| KvLaws.AdmissionAgrees | src/megakernel_lab/kv_cache.py:110-120 | `commit_tokens` raises exactly when `can_allocate` is false, whenever the cache is within `max_pages`; over all states, exactly unless nothing is needed and the cache is overfull beyond its unpinned pages (with `src/megakernel_lab/kv_cache.py:227-242`) |
| KvEffects.CommitRaisesExactly | src/megakernel_lab/runtime.py:203-210 | Within `max_pages`, a decode step's commit raises exactly if `can_allocate` was false: the eviction before it never rescues it |
| KvLaws.TwoPagesDisagree | src/megakernel_lab/kv_cache.py:110-120 | The failing case at a concrete cache: two pinned pages where one is allowed, `can_allocate` is true and `commit_tokens` raises (with `src/megakernel_lab/kv_cache.py:227-242`) |
| KvLaws.OverfullDisagrees | src/megakernel_lab/kv_cache.py:227-242 | The same for every overfull cache of pinned pages on one list that needs no more pages |
| KvLaws.GrantKeepsBound | src/megakernel_lab/kv_cache.py:227-264 | A granted allocation keeps `max_pages` if and only if no victim was a page of the request that it still needs |
| KvLaws.OwnPagesOvershoot | src/megakernel_lab/kv_cache.py:227-264 | A whole family of full caches, all pages the request's own and some unpinned, where a granted allocation ends above `max_pages` |
| KvLaws.PinnedGrantKeepsBound | src/megakernel_lab/kv_cache.py:227-264 | With the request's own pages pinned, success evicts exactly max(0, needed - free) pages, none of them its own, and keeps the bound |
| KvTiling.NewPagesTile | src/megakernel_lab/kv_cache.py:243-264 | New page i of a layer starts at token i * page_size, is full unless it is the last, and is pinned as asked |
| KvTiling.AllocationStaysTiled | src/megakernel_lab/kv_cache.py:243-264 | A list whose pages cover consecutive token ranges still does after an allocation that evicts none of them |
| KvRecency.NewPagesAreYoungest | src/megakernel_lab/kv_cache.py:191-225 | New pages are the last in LRU order, in the order of their ids |
| KvCache.KVCache.AllocateDraftPages | src/megakernel_lab/kv_cache.py:284-298 | Allocation followed by marking all of the request's pages on its layers draft |
| KvCache.KVCache.AcceptDraftPages | src/megakernel_lab/kv_cache.py:328-338 | Exactly the request's pages on its layers become committed |
| KvEffects.MarksMean | src/megakernel_lab/kv_cache.py:266-298 | Committing, drafting and accepting change exactly the two flags of exactly the request's pages on its layers, and how (with `src/megakernel_lab/kv_cache.py:328-338`) |
| KvEffects.DraftsLeft | src/megakernel_lab/kv_cache.py:284-298 | After committing or accepting no draft of the request is left; after drafting its drafts are exactly its uncommitted pages (with `src/megakernel_lab/kv_cache.py:328-338`) |
| KvCache.KVCache.ReleaseDraftPages | src/megakernel_lab/kv_cache.py:300-326 | Exactly the request's draft pages on its layers go, from every structure |
| KvLaws.DraftThenAccept | src/megakernel_lab/kv_cache.py:266-298 | Allocating drafts and accepting them reaches the same cache as committing with pins, and raises in the same cases (with `src/megakernel_lab/kv_cache.py:328-338`) |
| KvLaws.DraftThenRelease | src/megakernel_lab/kv_cache.py:284-326 | Without eviction, releasing the drafts restores pages, page lists and LRU order if and only if all of the request's earlier pages were committed |
| KvCache.KVCache.PinPages | src/megakernel_lab/kv_cache.py:340-350 | Live listed pages end pinned, and the pinned counter stays the sum over pinned pages |
| KvCache.KVCache.UnpinPages | src/megakernel_lab/kv_cache.py:352-362 | The same for unpinning |
| KvCache.KVCache.TouchPages | src/megakernel_lab/kv_cache.py:364-372 | Touched live pages move to the end of the LRU order, one by one; accesses and hits are counted |
| KvRecency.TouchOrder | src/megakernel_lab/kv_cache.py:364-372 | Two live pages end in LRU order a before b if and only if b is used after the last use of a, or neither is used and a was before b |
| KvRecency.TouchCounts | src/megakernel_lab/kv_cache.py:364-372 | Every touched id counts as an access, every live one as a hit |
| KvRecency.TouchedGoLast | src/megakernel_lab/kv_cache.py:122-147 | Among unpinned pages of one kind, eviction takes no page just used while an unused one is left (with `src/megakernel_lab/kv_cache.py:364-372`) |
| KvCache.KVCache.ReleaseRequest | src/megakernel_lab/kv_cache.py:417-439 | Exactly the request's pages go, and the counters stay non-negative without the clamps |
| SpecDecode.ProposeBlock | src/megakernel_lab/spec_decode.py:74-83 | The proposed block, negative widths included |
| SpecDecode.Verify | src/megakernel_lab/spec_decode.py:92-123 | The mask is the accepted prefix; it raises exactly if the backend is needed and has no active request |
| SpecDecode.AcceptsUpToStride | src/megakernel_lab/spec_decode.py:104-119 | Of a request's own tokens the verifier accepts all, or exactly up to the first stride hit, which it accepts |
| SpecDecode.CountAccepted | src/megakernel_lab/state.py:45-53 | The length of the accepted prefix: all true before it, false at it |
| SpecDecode.UpdateRequestBlockSize | src/megakernel_lab/spec_decode.py:35-64 | The new EMA, block size and history, with the pressure cap and the minimum |
| PolicyRates.BlockFollowsPolicy | src/megakernel_lab/spec_decode.py:35-64 | The rate moves by alpha of its distance to the observed share; the block is the largest, the middle or the smallest by rate, capped under pressure |
| PolicyRates.RefusedUpdates | src/megakernel_lab/spec_decode.py:47-51 | n blocks of which nothing was accepted leave (1 - alpha)^n of the rate |
| PolicyRates.AcceptedUpdates | src/megakernel_lab/spec_decode.py:47-51 | n wholly accepted blocks leave (1 - alpha)^n of its distance from one |
| RateAgreement.HistoriesAgree | cuda/include/stage_spec_verify.cuh:6-46 | The promise in the header: over any history of answers and pressure the device holds the rate and block size of the runtime's policy at its defaults (with `src/megakernel_lab/spec_decode.py:19-64`) |
| KvEffects.PressureFromSeventeenTwentieths | src/megakernel_lab/kv_cache.py:169-176 | Pressure holds exactly above 17/20 of max_pages, and always in a full cache |
| Requests.RequestState.KvPageIdList | src/megakernel_lab/state.py:114-122 | The snapshot's page ids, layer by layer, missing layers empty |
| Backend.CPUStubBackend.DecodeStep | src/megakernel_lab/backend.py:64-72 | Makes the request active; the candidates are what it may still produce, or its EOS |
| Backend.CPUStubBackend.SpeculativeVerify | src/megakernel_lab/backend.py:74-84 | A position is accepted exactly if the active request expects that token there; raises without one |
| Workers.PrefillWorker.Process | src/megakernel_lab/runtime.py:77-102 | Request and cache after one prefill, raising included |
| RuntimeUse.PrefillUsesItsPages | src/megakernel_lab/runtime.py:82-97 | After prefill the request's listed pages are live and the most recently used; new ones are pinned exactly if ready requests stay pinned |
| Workers.DecodeWorker.RehydrateIfNeeded | src/megakernel_lab/runtime.py:131-153 | Nothing if all snapshot pages are live, else release, allocate anew, count it |
| RuntimeReads.RehydrateRestores | src/megakernel_lab/runtime.py:131-153 | Nothing changes if all snapshot pages are live; otherwise one rehydration is counted, and each layer of the request ends with exactly ceil((prompt + committed) / page_size) live pages, all pinned and all in the snapshot |
| Workers.DecodeWorker.Process | src/megakernel_lab/runtime.py:155-256 | Request, cache and trace after one decode step: rehydration, selection, pins, block, fallback, adaptation, eviction, commit, finish test |
| RuntimeReads.DecodeReadsAll | src/megakernel_lab/runtime.py:155-178 | Without sparse selection, every decode step of every run reads on each layer pages for all prompt and committed tokens |
| RuntimeUse.StepKeepsWhatItReads | src/megakernel_lab/runtime.py:177-225 | No decode step evicts a page it reads; those pages end more recently used than all others; a finishing request ends unpinned, and the pages read by one that goes on stay pinned exactly if ready requests do |
| Runtime.PersistentDecodeRuntime.Submit | src/megakernel_lab/runtime.py:387-395 | Default layers, adaptive reset, and the stable place in the priority queue |
| RuntimeQueues.SubmissionDefaults | src/megakernel_lab/runtime.py:387-395 | Missing layers become all layers in order; identity and tokens stay |
| RuntimeQueues.PushIsInsert | src/megakernel_lab/runtime.py:46-53 | A push puts the request behind exactly those of at least its priority |
| RuntimeQueues.SubmissionsInOrder | src/megakernel_lab/runtime.py:387-395 | The prefill queue holds each submission once, by descending priority, equal priorities in order of submission |
| RuntimeQueues.PrefillHeadFirst | src/megakernel_lab/runtime.py:397-403 | In every reachable state the prefill queue is what is left of that order: no waiting request outranks its head |
| RuntimeQueues.DecodeHeadFirst | src/megakernel_lab/runtime.py:330-343 | In every reachable state the decode queue is in order of priority and then of joining, so no waiting request outranks its head (with `src/megakernel_lab/runtime.py:397-415`) |
| RuntimeQueues.DecodeServesHead | src/megakernel_lab/runtime.py:330-343 | A decode step takes that head and no other request |
| RuntimeQueues.PrefillServesHead | src/megakernel_lab/runtime.py:397-403 | So does a prefill step |
| RuntimeReports.DecodeRound | src/megakernel_lab/runtime.py:330-343 | A round decodes the first min(queue, workers) requests once each, in queue order, and settles them in that order |
| Runtime.PersistentDecodeRuntime.Run | src/megakernel_lab/runtime.py:397-415 | Ends; results sorted by id, each request once; the goals if EOS occurs only last; the cache empty with all four counters zero; with room for all, no raise and no eviction; decode steps within budget |
| RuntimeTokens.RunReturns | src/megakernel_lab/runtime.py:397-455 | Every run that returns reports each submitted request exactly once, with admissible tokens that its traces concatenate to: a prefix of the goal that is all of it or ends in EOS (for max_new <= 0 see Findings); each trace's proposal, fallback, acceptance and block size are those of the walk and the rate so far, and a request counts as preempted exactly if it took more than one step |
| RuntimeTokens.Lossless | src/megakernel_lab/runtime.py:155-256 | With max_new >= 1 and EOS in the goal at most last, the run returns exactly the first min(target, max_new) target tokens, whatever the blocks, stride, rejection, adaptation, workers, priorities, evictions or selection (with `src/megakernel_lab/spec_decode.py:74-123`) |
| RuntimeReports.RehydrationsAreCounted | src/megakernel_lab/runtime.py:131-153 | At any time of any run a result reports as many rehydrations as steps have found a page of that request missing and rebuilt its pages |
| RuntimeReports.SubmittedPace | src/megakernel_lab/runtime.py:387-395 | In every returned run the first block of each request has the configured size; under an adaptive policy the rate starts at 0.80 and each later recorded size follows from the acceptances recorded before it (with `src/megakernel_lab/runtime.py:180-201`) |
| RuntimeLossless.RunAgainstSerial | src/megakernel_lab/runtime.py:155-256 | In general the result extends the serial tokens within the goal; width-one runs return exactly the serial tokens, and runs whose first block covers the goal return all of it |
| RuntimeLossless.LosslessExactly | src/megakernel_lab/runtime.py:180-225 | Exactly when a run returns the serial tokens: if and only if some block it recorded ends where serial decode stops; with a fixed block size, if and only if the computed walk has a boundary there; EOS at most last is enough, and necessary where one block covers the goal |
| RuntimeLossless.FixedBlockTokens | src/megakernel_lab/runtime.py:180-225 | With a fixed block size every run returns the same tokens: up to the first block that ends in EOS, or the goal |
| BlockWalk.DecideAdvances | src/megakernel_lab/runtime.py:180-197 | What one decode step proposes and accepts, and when it falls back, in closed form: the block cut by budget and target, by the next multiple of the stride, or to one token if drafts are rejected (with `src/megakernel_lab/spec_decode.py:74-123`) |
| BlockWalk.WalkMeetsSerial | src/megakernel_lab/runtime.py:219-225 | The walk over blocks stops where serial decode does if and only if a block ends there |
| BlockWalk.PlainBoundaries | src/megakernel_lab/spec_decode.py:81-83 | Without stride and rejection, blocks end exactly at the multiples of their size and at the goal |
| RuntimeLossless.EosInTheMiddle | src/megakernel_lab/runtime.py:219-225 | A concrete request whose EOS comes first: serial decode stops behind it, one block of two runs past it |
| RuntimeLossless.EosOnABoundary | src/megakernel_lab/runtime.py:219-225 | A concrete request with an early EOS that is still lossless, because a block ends there |
| RuntimeLossless.NoBudgetTokens | src/megakernel_lab/spec_decode.py:74-83 | A run returns nothing for a request with max_new <= 0 if and only if its target does not start with the proposer's EOS, which is otherwise committed beyond the budget |
| RuntimeLossless.EosBeyondBudget | src/megakernel_lab/spec_decode.py:74-83 | The failing input: target `[eos]`, max_new 0, and every run that returns reports one token |
| RuntimeLossless.ZeroBlockNeverReturns | src/megakernel_lab/runtime.py:180-225 | With a block size that stays zero, fixed or adapted between a minimum of zero and no positive maximum, no run with something to say ever returns |
| RuntimeLossless.NegativeBlockOverruns | src/megakernel_lab/spec_decode.py:81-83 | A negative block size counts from the end of the target and passes the budget |
| RuntimeProgress.RunsEnd | src/megakernel_lab/runtime.py:397-415 | Every run ends, by returning or by raising |
| RuntimeProgress.StepsWithinBudget | src/megakernel_lab/runtime.py:330-343 | No reachable state has made more decode steps than the sum of max(1, min(target, max_new)) |
| RuntimeCapacity.RunTotal | src/megakernel_lab/runtime.py:397-415 | With room for all requests at full length, the run returns within the step budget with an empty cache, and no reachable state has raised or evicted (with `src/megakernel_lab/kv_cache.py:227-264`) |
| RuntimeResidency.ResidencySafety | src/megakernel_lab/runtime.py:131-153 | With ready pages pinned, every page that a step removes belongs to a finished request, and no request is ever rehydrated (with `src/megakernel_lab/runtime.py:203-235`) |
| RuntimeResidency.RunsKeepPageBound | src/megakernel_lab/runtime.py:177 | Without sparse selection, or with ready pages pinned, every reachable state is within `max_pages` (with `src/megakernel_lab/runtime.py:203-210`) |
| SparseOverrun.BoundIsPassed | src/megakernel_lab/runtime.py:168-177 | Otherwise the bound fails: a family of runs, sparse and unpinned, whose second decode step leaves more than `max_pages` pages (with `src/megakernel_lab/kv_cache.py:227-264`) |
| RuntimeResidency.ReturnsEmpty | src/megakernel_lab/runtime.py:408-412 | Every run that returns leaves no page behind |
| MegaKernel.CounterAndFlag | cuda/src/xl_persistent_megakernel.cu:88-117 | For any block program, any memory and every interleaving, at every point: the counter is the number of counted blocks, a counted block's request is done, and a raised flag means that all are counted and done |
| MegaKernel.FairRunCompletes | cuda/src/xl_persistent_megakernel.cu:88-117 | Under every interleaving that gives each block enough turns, every block ends done with the descriptor, pages and drafts of its own solo run |
| MegaKernel.FinishedCounts | cuda/src/xl_persistent_megakernel.cu:103-107 | A finished launch has counted every block exactly once |
| MegaKernel.ExitedIsSolo | cuda/src/xl_persistent_megakernel.cu:88-117 | A block that has left its loop at any time, by flag or bound, is done and equals its solo run |
| MegaKernel.OutcomeIsUnique | cuda/src/xl_persistent_megakernel.cu:88-117 | Any two finished interleavings leave the same device memory |
| MegaKernel.VerifyStaysInRegion | cuda/include/stage_spec_verify.cuh:54-66 | No block ever verifies beyond its own draft region (with `cuda/include/stage_decode.cuh:12-24`) |
| MegaKernel.DecodeStaysInRegion | cuda/include/stage_decode.cuh:12-24 | No block ever drafts beyond its own draft region |
| KernelCode.KernelAlone | cuda/src/xl_persistent_megakernel.cu:72-117 | The loop as code over the arrays, for one request: ends counted, flag up, at the solo run's memory |
| ResidentBlock.SoloRunCompletes | cuda/src/xl_persistent_megakernel.cu:88-101 | A ready request is done after at most max_new iterations |
| ResidentBlock.RoundStaysCalm | cuda/include/stage_spec_verify.cuh:16-75 | A request whose first draft is not wholly accepted never adapts to blocks of eight, since one of four successive tokens is refused |
| ResidentBlock.HostLaunchFits | cuda/src/host_launcher.cpp:466-474 | The host's regions, four times the first block size, are long enough for every draft of its requests (with `cuda/src/host_launcher.cpp:316-335`) |
| MegaKernel.HostIsLaunched | cuda/src/host_launcher.cpp:466-474 | So every launch the host makes satisfies what the results ask of one: disjoint pages and regions, ready requests, drafts that fit (with `cuda/src/host_launcher.cpp:316-335`) |
| ResidentBlock.CalmIsNeeded | cuda/include/stage_decode.cuh:12-24 | With regions below eight tokens the condition is necessary: a wholly accepted first draft is followed by one of eight tokens |
| ResidentBlock.FourAreNotEnough | cuda/include/stage_decode.cuh:12-24 | Such a request, concretely |
| Stages.StagePrefill | cuda/include/stage_prefill.cuh:7-28 | Descriptor and every page entry after prefill |
| Stages.StageDecode | cuda/include/stage_decode.cuh:6-40 | Descriptor and draft buffer after decode, drafting or serial, with or without a buffer |
| Stages.StageSpecVerify | cuda/include/stage_spec_verify.cuh:48-75 | Descriptor after verification of the draft region |
| BlockRates.BlockFollowsRate | cuda/include/stage_spec_verify.cuh:16-46 | The rate moves a fifth of the way to the observed share; the block is 8, 4 or 1 exactly as the new rate is at least 0.80, at least 0.50 or less, and 2 or 1 under pressure |
| BlockRates.RefusedRounds | cuda/include/stage_spec_verify.cuh:22-30 | n wholly refused drafts leave 0.80^n of the rate |
| BlockRates.AcceptedRounds | cuda/include/stage_spec_verify.cuh:22-30 | n wholly accepted drafts leave 0.80^n of its distance from one |
| BlockRates.RefusedFallsToOne | cuda/include/stage_spec_verify.cuh:30-45 | From 0.80, refused drafts give blocks of four twice and single tokens from the third on |
| BlockRates.AcceptedRisesToEight | cuda/include/stage_spec_verify.cuh:30-45 | Accepted drafts give blocks of eight, at once from 0.80 and within eight rounds from any rate |
| StageLaws.VerifiedWithinBudget | cuda/include/stage_spec_verify.cuh:54-66 | Verification accepts no more than was drafted or than the budget has left, so a commit never emits beyond the budget, one fallback token aside (with `cuda/include/stage_commit.cuh:8-59`) |
| Stages.StageCommit | cuda/include/stage_commit.cuh:8-59 | Descriptor and pages after commit: fallback token, or accepted prefix with committed and released pages |
| StageLaws.PrefilledPages | cuda/include/stage_prefill.cuh:13-25 | Prefill leaves the request's pages its own, committed, pinned, resident and no draft, and touches no other |
| StageLaws.DraftCountsUp | cuda/include/stage_decode.cuh:12-24 | A draft starts with the token that serial decode would emit and counts up, wrapping at the vocabulary |
| StageLaws.DraftsWithinBudget | cuda/include/stage_decode.cuh:12-24 | It is as long as block size and remaining budget allow, and emits nothing yet |
| StageLaws.CommitAdds | cuda/include/stage_commit.cuh:8-59 | A commit adds the accepted tokens or one fallback token; the request is done exactly if its budget is used up or the fallback token is EOS |
| StageLaws.IterationsStayInStep | cuda/src/xl_persistent_megakernel.cu:88-101 | After every iteration the decode position is the number of emitted tokens |
| VerifyCommit.FusedVerifyAndCommit | cuda/src/verify_commit_kernel.cu:26-132 | The fused kernel's descriptor, page table and metrics |
| VerifyCommit.FusedEqualsStaged | cuda/src/verify_commit_kernel.cu:44-132 | Fused equals verify then commit, descriptor and pages, if and only if the request was not already waiting to commit (with `cuda/include/stage_spec_verify.cuh:48-75` and `cuda/include/stage_commit.cuh:8-59`) |
| Stages.AcceptedRunIsLongest | cuda/src/verify_commit_kernel.cu:58-69 | What is accepted is the longest leading run without a live EOS or a multiple of four |
| VerifyCommit.NoDraftSurvives | cuda/src/verify_commit_kernel.cu:105-126 | After a commit no page of the request is a draft, covered pages are committed and resident, nothing else changes |
| VerifyCommit.MetricsBalance | cuda/src/verify_commit_kernel.cu:56-126 | Accepted plus rejected are the candidates; committed plus released are the request's pages; the output grows by the accepted tokens or the fallback |
| Baseline.BaselineDecodeStep | cuda/src/baseline_host_decode_kernel.cu:32-63 | One host-launched step, out-of-range threads included |
| Baseline.IterationIsBaseline | cuda/src/baseline_host_decode_kernel.cu:39-62 | With speculation off one mega-kernel iteration is one baseline step if and only if the request is not in the middle of a speculative round (with `cuda/src/xl_persistent_megakernel.cu:94-101`) |
| Baseline.IterationsAreBaseline | cuda/src/xl_persistent_megakernel.cu:88-101 | n iterations of a resident block are n baseline launches, up to the adaptive fields the block sets (with `cuda/src/baseline_host_decode_kernel.cu:39-62`) |
| Baseline.ClosedForm | cuda/include/stage_decode.cuh:27-39 | Before any stop, step n's token is (t0 + n * (1 + request_id)) mod 32000, and every other field is known |
| Baseline.PrefillStarts | cuda/src/baseline_host_decode_kernel.cu:43-52 | From prefill, token n is (7 id + 3 + n (1 + id)) mod 32000 whatever the request held before, and the run is that of its seeded descriptor |
| Baseline.BaselineRun | cuda/src/baseline_host_decode_kernel.cu:39-62 | Ready before the first stop, complete and unchanged from it on; EOS is flagged exactly if the stop's token is EOS |
| Baseline.CompletionStep | cuda/src/baseline_host_decode_kernel.cu:50-61 | With no output yet, completion takes the smaller of the budget and the first step that hits EOS |
| Baseline.SoloRunMatchesBaseline | cuda/src/xl_persistent_megakernel.cu:88-101 | A resident block completes exactly if it has that many iterations, with that many tokens and that last token (with `cuda/include/stage_decode.cuh:27-39`) |
| RingQueue.DeviceQueue.TryPop | cuda/include/queue_desc.h:13-20 | Refines a FIFO: returns the oldest value, fails exactly if empty |
| RingQueue.DeviceQueue.TryPush | cuda/include/queue_desc.h:22-30 | Appends, refused exactly if capacity - 1 values wait |
| RingQueue.DeviceQueue.Depth | cuda/src/trace_replay_admission_kernel.cu:65-68 | The depth formula is the number of waiting values |
| TraceModel.Conservation | cuda/src/trace_replay_admission_kernel.cu:55-124 | After every step arrivals are queued, active or completed; slots are respected; each request completes at most once with exactly its service; total quanta are the service given |
| TraceModel.NoPushRefused | cuda/src/trace_replay_admission_kernel.cu:55-63 | With capacity above the number of requests no push is refused |
| TraceModel.AdmissionOrder | cuda/src/trace_replay_admission_kernel.cu:77-100 | Admissions are a prefix of the arrivals in order of step and index, and the queue is the rest |
| TraceModel.ArrivedIsSorted | cuda/src/trace_replay_admission_kernel.cu:55-58 | That reference order holds exactly the arrivals so far, sorted by step and index |
| TraceModel.PeaksBounded | cuda/src/trace_replay_admission_kernel.cu:65-104 | The two watermarks never exceed the number of requests and the number of slots |
| Makespan.MakespanBound | cuda/src/trace_replay_admission_kernel.cu:52-125 | All requests have completed by last arrival + floor(total work / slots) + longest service |
| ReplayService.ServedWithoutPause | cuda/src/trace_replay_admission_kernel.cu:77-124 | An admitted request gets one quantum in every step from its admission on and completes with exactly the max(1, service)-th; so admission determines completion |
| ReplayService.CompletionOrder | cuda/src/trace_replay_admission_kernel.cu:106-124 | What completes in a step are the requests in their last quantum, in slot order |
| TraceReplay.ReplayTrace | cuda/src/trace_replay_admission_kernel.cu:20-125 | The kernel's queue, slots, order arrays, request states and metrics are those of the state machine; it stops early only if all completed, and completes all within the makespan bound |
| TierResidency.RebalanceTiers | cuda/src/kv_tier_residency_kernel.cu:44-141 | Tiers and metrics of the request after promotion, counting and two demotion passes; other requests' tiers are untouched |
| TierResidency.ListedRise | cuda/src/kv_tier_residency_kernel.cu:66-139 | For any row: a listed page rises once for each time it is listed, down to HBM, and is never demoted; other pages never rise |
| TierResidency.SelectedRise | cuda/src/kv_tier_residency_kernel.cu:66-139 | With no page listed twice, padding aside, each selected page rises exactly one tier |
| TierResidency.PromotionsAdd | cuda/src/kv_tier_residency_kernel.cu:66-89 | Also for repeated ids: a page rises once for each time it is listed |
| TierResidency.WithinCapacityOrSelected | cuda/src/kv_tier_residency_kernel.cu:105-139 | HBM and DRAM each end within capacity or hold only selected pages |
| TierResidency.NoNeedlessDemotion | cuda/src/kv_tier_residency_kernel.cu:105-139 | A tier that pushed pages down still ends at capacity or above, so no demotion was needless |
| TierResidency.CountsAreTrue | cuda/src/kv_tier_residency_kernel.cu:91-141 | Reported counts are the true ones, and the tier sum moves by demotions minus promotions |
| TierResidency.MovesBalance | cuda/src/kv_tier_residency_kernel.cu:66-141 | Reported promotions into HBM and DRAM are the pages listed often enough to pass; each tier ends with what it had plus what came in minus what went out |
| TierResidency.LastPagesGoFirst | cuda/src/kv_tier_residency_kernel.cu:105-139 | A page is demoted only after every later movable page of its tier |
| PressureEviction.EvictUnderPressure | cuda/src/kv_pressure_eviction_kernel.cu:20-90 | Entries and all metrics, scan lengths and skip counts included; pages outside the request's range are untouched |
| PressureEviction.DraftFirstEviction | cuda/src/kv_pressure_eviction_kernel.cu:38-87 | Exactly min(budget, eligible drafts + eligible committed) pages go; a committed page only after every eligible draft; within a kind by position; pinned, selected and foreign pages never |
| PressureEviction.EvictionClears | cuda/src/kv_pressure_eviction_kernel.cu:72-76 | An evicted entry is evictable, has lost its five roles and its selection, and is otherwise the same |
| PressureEviction.BudgetToSpare | cuda/src/kv_pressure_eviction_kernel.cu:40-87 | With budget to spare exactly the reclaimable pages go, and every page is scanned and every protected one skipped in both passes |
| PressureEviction.PassStops | cuda/src/kv_pressure_eviction_kernel.cu:40-87 | A pass stops behind the page that uses up its budget |
| SparseSelect.SelectSparseBlocks | cuda/include/stage_sparse_kv_select.cuh:18-65 | Score, selection and rank of every entry in the request's range, clipped at the table's end |
| SparseSelect.SelectedAreTheBest | cuda/include/stage_sparse_kv_select.cuh:38-64 | Selected are exactly the first min(top_k, eligible) of the stable descending-score sort, and the rank is the place in it |
| SparseSelect.NearAndFullFirst | cuda/include/stage_sparse_kv_select.cuh:7-16 | No page left out outweighs a selected one, where a token weighs as much as 100 positions nearer and a position as 100 layers; so, all else equal, the nearer, the fuller and the lower page goes first (with `cuda/include/stage_sparse_kv_select.cuh:18-65`) |
| SparseSelect.SelectionMarks | cuda/include/stage_sparse_kv_select.cuh:18-65 | The stored score is 10000 per token less 100 per position away less the layer; flag, step and mark follow the selection, all else stays |
| SparseSelect.AllWithRoom | cuda/include/stage_sparse_kv_select.cuh:18-65 | With room for all, exactly the request's resident pages that are no drafts are selected |
| SparseGather.GatherKernel | cuda/src/sparse_kv_gather_kernel.cu:25-101 | The row, the compacted slots, the table and the metrics of one block; all other rows, slots and entries unchanged |
| SparseGather.RowIsTopOfSort | cuda/src/sparse_kv_gather_kernel.cu:49-96 | The row holds the first min(top_k, row size, eligible) pages of the sort, each slot that page's payload, then -1 and untouched slots |
| SparseGather.BytesReported | cuda/src/sparse_kv_gather_kernel.cu:61-100 | Bytes read are four per payload integer for the min(asked, eligible) pages of the row, bytes saved as many for the eligible rest |
| Ranking.SortSorted | src/megakernel_lab/sparse_kv.py:57-62 | The reference sort is sorted by the given total order |
| Ranking.SortUnique | src/megakernel_lab/sparse_kv.py:57-62 | And does not depend on the order in which the elements come |
| SparseSelector.KeyIsTotal | src/megakernel_lab/sparse_kv.py:57-60 | The selector's sort key is a strict total order on the pages of a cache |
| SparseSelector.SelectedPagesAreBest | src/megakernel_lab/sparse_kv.py:44-67 | The selection is min(top_k, committed pages) distinct pages, sorted, each ranked before every committed page left out |
| SparseSelector.NearAndFullFirst | src/megakernel_lab/sparse_kv.py:34-62 | The same exchange rates of tokens, positions and layers as on the device, then the lower layer, first token and page id |
| SparseSelector.AllWithRoom | src/megakernel_lab/sparse_kv.py:44-67 | With room for all, exactly the request's committed pages that are no drafts are selected |
| SparseSelector.SparseReads | src/megakernel_lab/runtime.py:168-178 | A decode step reads all snapshot pages unless sparse selection asks for a page and finds a committed one; then at most top_k committed pages of the request |
| SparseSelector.Select | src/megakernel_lab/sparse_kv.py:38-76 | The code that collects, filters, sorts and cuts returns that selection, whatever the order of the page table |
| KvCache.KVCache.PagesForRequest | src/megakernel_lab/kv_cache.py:382-392 | Each live page of the request once, and no others |
| Ranking.NextRanked | cuda/include/stage_sparse_kv_select.cuh:38-64 | Repeatedly taking the best that is left yields the prefixes of that sort |
| ResidentScheduler.ScheduleRequests | cuda/src/resident_scheduler_kernel.cu:20-73 | Both output rows and the counters; examined is min(n, scheduled + 1) * min(n, 256) |
| ResidentScheduler.OutputIsSchedule | cuda/src/resident_scheduler_kernel.cu:32-71 | The output is exactly the live requests in descending priority, ties by lower index, then -1 |
| ResidentScheduler.LeftOutExactly | cuda/src/resident_scheduler_kernel.cu:45-63 | A live request is left out exactly beyond index 255 or at the lowest priority |
| MovementPlan.PlanMovement | cuda/src/dma_aware_kv_movement_planner_kernel.cu:50-103 | Tier and operation of every entry, and all metrics of the row; other rows unchanged |
| MovementPlan.TiersRepeat | cuda/src/dma_aware_kv_movement_planner_kernel.cu:33-48 | Of each five pages two are in HBM, two come from DRAM and one from SSD, each by its own operation; negative ids name none |
| MovementPlan.StageRow | cuda/src/tiered_kv_staging_kernel.cu:29-88 | The staged row, slots and metrics; other rows unchanged |
| MovementPlan.PlanThenStage | cuda/src/dma_aware_kv_movement_planner_kernel.cu:69-100 | Staged ids are the stable rearrangement by planned tier of the row's non-negative ids, slots alternate, switches are max(0, staged - 1), and bytes equal HBM bytes plus bytes moved (with `cuda/src/tiered_kv_staging_kernel.cu:50-85`) |

## Findings

Where a promised property does not hold of the code, the exact condition is proved beside it.

- The fused kernel and the separate stages differ on a request that is already COMMIT_READY: `stage_commit` commits
  it, the fused kernel returns (`VerifyCommit.FusedEqualsStaged`).
- Only the last token of a block is compared with EOS, so a block may run past one. A run is lossless exactly when a
  block ends where serial decode stops: with a fixed block size that is a computable condition on target, block size,
  stride and rejection; with adaptive sizes, which also depend on cache pressure, it is a condition on the recorded
  blocks (`RuntimeLossless.LosslessExactly`, `RuntimeLossless.EosInTheMiddle`, `RuntimeLossless.EosOnABoundary`).
- With `max_new_tokens <= 0` one token is committed beyond the budget if the target starts with the proposer's EOS
  (`RuntimeLossless.NoBudgetTokens`, `RuntimeLossless.EosBeyondBudget`).
- With a block size that stays zero the run never returns, and a negative one passes the token budget
  (`RuntimeLossless.ZeroBlockNeverReturns`, `RuntimeLossless.NegativeBlockOverruns`).
- `allocate_for_request` computes the need before it evicts, so a request whose own unpinned pages are evicted can
  take the cache above `max_pages`: at one call (`KvLaws.GrantKeepsBound`, `KvLaws.OwnPagesOvershoot`) and in whole runs
  with sparse selection and unpinned ready pages (`SparseOverrun.BoundIsPassed`).
- Releasing drafts restores the cache only if the request's earlier pages were committed, since allocating drafts
  marks all of its pages (`KvLaws.DraftThenRelease`).
- `can_allocate` and allocation disagree where nothing is needed and the cache is overfull
  (`KvLaws.AdmissionAgrees`, `KvLaws.TwoPagesDisagree`).
- The defensive clamps at the end of `release_request` never act (`KvCache.KVCache.ReleaseRequest`).
- Draft regions of four tokens are too short for an arbitrary request, since block sizes adapt to eight. They are long
  enough for the host's own launches: the first draft token there is a multiple of four and is refused, and from then on
  no rate reaches the largest block size (`ResidentBlock.FourAreNotEnough`, `ResidentBlock.HostLaunchFits`).
- The scheduler drops requests beyond the first 256 and those at priority -2147483647 or below
  (`ResidentScheduler.LeftOutExactly`).

## Left out

- Runtime.PersistentDecodeRuntime.Run: a second `run()` on the same runtime is not covered, nor are repeated request
  ids, repeated layer ids within a request, or a pool without workers; it starts with an empty decode queue, no traces
  and an empty cache. Block sizes below one are covered by `ZeroBlockNeverReturns` and `NegativeBlockOverruns` alone.
- Workers.PrefillWorker.Process: leaves out times, the worker id and statistics; a repeated layer id would be touched
  once for each time it is named.
- Workers.DecodeWorker.Process: leaves out times, worker ids, statistics, and the trace's KV block counts and byte
  estimates.
- Backend.CPUStubBackend.DecodeStep: leaves out the latency, and the sleep that goes with it.
- KernelCode.KernelAlone: runs the loop's code for a launch with one request; for several, the interleavings are proved
  on values.
- Handoffs, virtual time, and the derived rates and block totals of `DecodeResult`.
- Score, rank and selected fields that the Python selector writes on pages: the selection itself is modelled.
- `touch_request`, `positions_for`, `residency_report` and the order of page-table entries.
- Python exceptions carry no message: a raising call is an `ok` flag, `None`, or the `Refused` and `Raised` outcomes.
- `heapq` and `sorted` internals: stable max-priority queues, and a reference sort proved unique.
- Integer overflow at 32 bits, floating-point rounding, and flag bits other than the named ones.
- GPU memory-model fences: a stage, a count or a poll is one atomic step of a block.
- Null page tables, null page entries and null payload buffers; null draft buffers are modelled.
- Draft and page ranges outside their arrays: they are preconditions, as the kernels do not test them.
- `allocate_fake_kv_pages_for_request`, `mark_draft_kv_region`, `touch_kv_pages`, `find_entry` and the stage scheduler
  header, which no modelled kernel calls.
- The tiered cache, the benchmarks, the block runtime and the other research kernels: separate programs, or simpler
  forms of what is here.
