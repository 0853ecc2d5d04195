# Verified models of the ruda numerics and serving core

This project models the algorithms of the repository whose correctness is hardest to see from the code,
and proves what they promise. Every file is given to Dafny together: `dafny verify dfyconfig.toml`.

- **Continuous batching** (`Protocol*.dfy`, `PagedKv.dfy`, `SchedulerTies.dfy`, `Admission.dfy`,
  `Scheduler.dfy`, `PagedMemory.dfy`, `PagedEngine.dfy`). The batch scheduler is a state machine over requests, page reservations and one batch in flight. `Protocol` states
  its events on values, with the tokens stored in the KV cache as explicit state. `BatchScheduler` is the
  imperative scheduler over a page manager; it carries the run of events it has performed, and its invariant
  says that the run is legal and ends in its own state. The main theorem is over whole runs: whatever
  interleaving of submission, chunked prefill, preemption, speculative verification, failure and cancellation
  happened, a finished greedy generation is the output of the single-sequence decoder in `Generation`.
  `PagedEngine` puts a device below it: memory is slots of pages, a batch writes its tokens into the slots its
  block tables name and reads every context back through them. That the slots still hold what the scheduler
  believes is cached is an invariant, so `run_until_idle` is proved to answer every request, and every greedy
  one with the single-sequence decoder's output, without any assumption about the device's answers.
- **Draft-and-verify decoding and dense paged storage** (`CausalDraft.dfy`, `Dense*.dfy`). The storage is
  pages, tables and positions; every operation is described by what it does to the logical contents of each
  request. The decoder above it runs ahead, verifies, truncates and replays, for any draft model.
- **Fast Fourier transforms** (`Rings.dfy`, `ComplexNumbers.dfy`, `Fourier.dfy`, `Butterflies.dfy`,
  `CoefficientFft.dfy`, `FftKernels.dfy`, `Bluestein.dfy`, `FftPlan.dfy`). The transform as a sum, the
  recursive form, the in-place iterative form, the ping-pong device pipeline, and the chirp convolution for
  lengths that are not powers of two, over any commutative ring with roots of unity; forward and inverse plans
  undo each other for every length. `ComplexIsRing` supplies the complex numbers from sine and cosine.
- **Attention** (`RealSums.dfy`, `Softmax.dfy`, `AttentionKernels.dfy`, `AttentionBackward.dfy`). One-pass
  online softmax, split keys, cooperating warps and ring blocks over the reals, with any function that obeys
  the laws of the exponential. The backward passes are tied to what a gradient is: how the output answers to
  raising one score, as an exact difference.
- **Index arithmetic and selection** (`Philox.dfy`, `Indexing.dfy`, `ExpertTiles.dfy`, `WarpRouting.dfy`).
- **Prefix store** (`PrefixTiers.dfy`, `PrefixPolicy.dfy`, `PrefixStores.dfy`). Device, host and disk tiers
  with exact accounting; entries are passed down unchanged, oldest first.
- **Adaptive integration** (`Ode.dfy`, `OdeOrder.dfy`, `Events.dfy`, `EventLog.dfy`). The Dormand-Prince loop
  and its event tracker. A run is a chain of accepted steps, and its event log is described in terms of that
  chain. `OdeOrder` proves the order of the method: all order conditions, exact integrals of quartics over
  whole runs, and the exponential series on the linear equation.

Two promises turned out to need a condition, and the condition is proved to be exact:

- Completing a verification batch through `complete_batch`, which does not test the batch kind, leaves a
  consistent scheduler exactly when every row ends on an end-of-sequence token
  (`PlainCompletionOfVerifyBatch`, with the run `PlainCompletionExample`).
- A successful insert into the prefix store ends within all three budgets exactly when it inserted a new key
  or the budgets held before it. After a failed disk write the host tier can stay over its budget, and
  inserting a known key then succeeds without repairing it (`InsertTo`, with `BudgetMissed`).

Conventions. A loop of the source is a loop of a method; a kernel launch is a loop with one round per thread,
and the proofs show that each element has one writer. Mutable objects are classes with the source's fields.
Errors are `Result`s without their texts. `usize` and `f64` are unbounded integers and reals except where a
width is written out (`Indexing`, `Philox`, the 64-bit request and batch counters). Proof-only fields of the
scheduler (`stored`, `done`, `events`) record tokens in the cache, all results ever produced, and the run.

## Model

| member | source | states |
|---|---|---|
| `Generation.GenerateGreedy` | ruLLM/src/generation.rs:313-447 | Invalid inputs fail and a model that stays in its vocabulary never does; the output is the model iterated from the prompt, cut at the first end-of-sequence token or at the token budget. |
| `Generation.GreedyOutputUnique` | ruLLM/src/generation.rs:401-447 | That specification determines the output. |
| `ProtocolSafety.AcceptedShape` | ruLLM/src/continuous_batch.rs:726-738 | Acceptance takes a front part of the predictions, agrees with the draft on all but the last, has an end-of-sequence token only at the end, and stops only at the budget, at such a token, at the end of the row or at the first draft token that differs. |
| `ProtocolSafety.ProducedIsTaken` | ruLLM/src/continuous_batch.rs:724-738 | What a verified row produces, said without the loop: a front part of its predictions, all but the last equal to the draft and no stop token, ending exactly where the request's own remaining budget, a stop token, the row's end or a differing draft token ends it. |
| `ProtocolSafety.TakenUnique` | ruLLM/src/continuous_batch.rs:724-738 | That description determines the tokens. |
| `ProtocolSafety.AcceptedFollowsModel` | ruLLM/src/continuous_batch.rs:726-738 | For every draft, padded or not, the accepted tokens are the model's own iterated choices. |
| `ProtocolSafety.VerifiedRowGrows` | ruLLM/src/continuous_batch.rs:741-751 | After verification the history is prompt and generated tokens and the committed inputs are the new history without its last token. |
| `ProtocolSafety.CompleteRowGood` | ruLLM/src/continuous_batch.rs:558-587 | Completing a prefill or decode row keeps every request's phase, history and cached tokens consistent, with exactly the later rows still in flight. |
| `ProtocolSafety.CompleteVerifyRowGood` | ruLLM/src/continuous_batch.rs:718-773 | The same for a verification row. |
| `ProtocolRuns.FailUndoesLaunch` | ruLLM/src/continuous_batch.rs:593-617 | Failing a batch restores the phases, histories and cached tokens from before its launch. |
| `ProtocolRuns.StepKeeps` | ruLLM/src/continuous_batch.rs:199-220 | Every event keeps the invariant: history is prompt and generated tokens, the cache holds a prefix of it, awaiting a decode means all but the last token is cached, in flight means owned by a row, and every request is in exactly one place. |
| `ProtocolRuns.StepStreams` | ruLLM/src/continuous_batch.rs:226-229 | Every event, preemption and verification included, keeps all generated tokens equal to the model's stream. |
| `ProtocolRuns.RunsAreSafe` | ruLLM/src/continuous_batch.rs:427-775 | Every state of every run satisfies the invariant. |
| `ProtocolRuns.BatchingRefinesGreedyDecoding` | ruLLM/src/continuous_batch.rs:427-775 | Over every run with an honest device, each finished greedy generation is the single-sequence decoder's output, and the end-of-sequence flag is right. |
| `ProtocolRuns.OutputsDoNotDependOnScheduling` | ruLLM/src/continuous_batch.rs:327-329 | Two runs that differ in scheduling, drafts, preemptions and failures answer the same greedy request identically. |
| `ProtocolMisuse.PlainCompletionOfVerifyBatch` | ruLLM/src/continuous_batch.rs:512-589 | Completing a verification batch plainly leaves a consistent state if and only if every row's token ends its request. |
| `ProtocolMisuse.PlainCompletionExample` | ruLLM/src/continuous_batch.rs:512-589 | A legal run (submit, admit, prefill, verify with the draft that its own history gives) whose state a plain completion makes inconsistent. |
| `PagedKv.LoneHolderCanAppend` | ruLLM/src/paged_kv.rs:331-351 | With no other page holder, an append fits whenever the pool holds one sequence of maximal length. |
| `PagedKv.TakeLowest` | ruLLM/src/paged_kv.rs:644-659 | The pages taken are the lowest free ones, in order. |
| `PagedKv.Manager.CreateSequence` | ruLLM/src/paged_kv.rs:218-240 | Succeeds exactly for a new request and adds an empty sequence. |
| `PagedKv.Manager.CanAppendTokens` | ruLLM/src/paged_kv.rs:331-351 | Answers whether the reservation below would succeed. |
| `PagedKv.Manager.BeginAppend` | ruLLM/src/paged_kv.rs:353-424 | Succeeds exactly when the append fits; reserves the lowest free pages for it and changes nothing else. |
| `PagedKv.Manager.CommitAppendPrefixes` | ruLLM/src/paged_kv.rs:473-492 | Commits a group all or nothing, each row at its own length; each sequence keeps exactly its first pages, as many as its committed tokens need. |
| `PagedKv.Manager.CommitAppendPartial` | ruLLM/src/paged_kv.rs:494-530 | Commits part of one reservation; the sequence keeps exactly the first pages its committed tokens need, and no other sequence changes. |
| `PagedKv.Manager.CancelAppends` | ruLLM/src/paged_kv.rs:566-575 | Cancels a group all or nothing; committed lengths stay and each table is again the front part from before its reservation. |
| `PagedKv.Manager.RemoveSequence` | ruLLM/src/paged_kv.rs:606-624 | Succeeds exactly without a pending append and returns all of the sequence's pages. |
| `Scheduler.NgramDraft` | ruLLM/src/continuous_batch.rs:256-270 | The draft continues the most recent earlier occurrence of the longest matching suffix, and is empty exactly when no suffix matches. |
| `Scheduler.BatchScheduler.Submit` | ruLLM/src/continuous_batch.rs:353-425 | Accepts exactly the admissible requests; an accepted one is queued, or finished at once with an empty budget. |
| `Scheduler.BatchScheduler.PromotePending` | ruLLM/src/continuous_batch.rs:808-850 | Admits exactly the first ready requests of the queue, in order, with consecutive admission numbers, until the active limit or until none is ready; every other request keeps its place and state. |
| `Admission.PromotedNext` | ruLLM/src/continuous_batch.rs:808-850 | Taking the first ready request extends the round by the next ready one of the original queue. |
| `Scheduler.BatchScheduler.ScheduleDecode` | ruLLM/src/continuous_batch.rs:852-880 | A decode batch within the token budget with ascending request ids that leaves nobody out: it is full, or no waiting decode fits the free pages any more. None exactly if none fitted. |
| `SchedulerTies.NoDecodeLeft` | ruLLM/src/continuous_batch.rs:861-878 | After trying every waiting request in order, one that got no row does not fit, however many pages the others took. |
| `Scheduler.BatchScheduler.ChooseBucket` | ruLLM/src/continuous_batch.rs:889-946 | The bucket that puts most tokens on the device; of equally full ones the one with the oldest request. |
| `Scheduler.BatchScheduler.SchedulePrefill` | ruLLM/src/continuous_batch.rs:889-946 | All rows come, in id order, from the fullest of the buckets into which the requests that can prefill fall by chunk length and cached state, and the batch is full or no other request of that bucket fits; none exactly if no prefill chunk fits. |
| `Scheduler.NoPrefillLeft` | ruLLM/src/continuous_batch.rs:923-945 | After the bucket is tried, a request of it without a row does not fit, unless the batch is full. |
| `Scheduler.BatchScheduler.ScheduleVerify` | ruLLM/src/continuous_batch.rs:657-702 | Every row is the token to decode followed by the draft its own history gives, padded to one width; ids ascend and the batch is full or no further request with a draft fits; none only if speculation is off, the budget is below one row, or no request with a draft fits. |
| `Scheduler.NoDraftLeft` | ruLLM/src/continuous_batch.rs:657-702 | After the drafts are tried, a request with a draft and without a row does not fit, unless the batch is full. |
| `Scheduler.BatchScheduler.FinishSchedule` | ruLLM/src/continuous_batch.rs:954-986 | The collected rows become the batch of the next number, a launch the protocol allows: distinct requests in the right phase, equally wide, within the budget. |
| `Scheduler.BatchScheduler.TrySchedule` | ruLLM/src/continuous_batch.rs:451-479 | One attempt: a uniform batch within the budget that leaves nobody out, or none only if no decode and no prefill fits; the kind is the one whose turn it is, by the alternation of prefills with other batches and of verifications with decodes, and another only if that one finds nothing. |
| `Scheduler.BatchScheduler.PreemptNewest` | ruLLM/src/continuous_batch.rs:481-510 | With more than one page holder, the newest one gives up its pages and will be recomputed; otherwise nothing changes. |
| `Scheduler.BatchScheduler.Schedule` | ruLLM/src/continuous_batch.rs:427-449 | The preemption loop ends; a batch is uniform with rows times width within the budget, its ids ascend and it leaves no request of its kind out that still fits; only admissions, preemptions and one launch happen, no result or request is touched, and whatever stays cached stays on its pages; with preemption on, nothing deferred, no admission ceiling and a pool for one maximal sequence, no batch means no work. |
| `Scheduler.BatchScheduler.CompleteBatch` | ruLLM/src/continuous_batch.rs:512-589 | Succeeds exactly for the batch in flight with matching tokens, whatever its kind, and then applies one token per row; except for a verification batch it performs the protocol's completion event. |
| `Scheduler.BatchScheduler.Accept` | ruLLM/src/continuous_batch.rs:726-738 | The acceptance loop computes exactly the tokens so described. |
| `Scheduler.BatchScheduler.CompleteVerifyBatch` | ruLLM/src/continuous_batch.rs:704-775 | Succeeds exactly for a verification batch in flight with one prediction per position, performs the protocol's event, returns for every row the tokens described above with the request's own budget and stop tokens, and counts the drafted and the accepted tokens. |
| `Scheduler.BatchScheduler.FailBatch` | ruLLM/src/continuous_batch.rs:593-618 | Rolls the reservations back and restores the phases. |
| `Scheduler.BatchScheduler.CancelRequest` | ruLLM/src/continuous_batch/lifecycle.rs:44-74 | Refuses exactly the requests in flight and removes any other known one. |
| `Scheduler.BatchScheduler.PopFinished` | ruLLM/src/continuous_batch.rs:620-622 | Results come out in the order they were produced. |
| `Scheduler.BatchScheduler.FinishedIsGreedy` | ruLLM/src/continuous_batch.rs:327-329 | Every result the scheduler object holds is the single-sequence decoder's, if the answers in its run of events were the model's; every method says which event it adds. |
| `Scheduler.StuckMeansIdle` | ruLLM/src/continuous_batch.rs:439-449 | When nothing fits although at most one request holds pages, there is no request. |
| `Scheduler.BatchScheduler.SetSpeculativeDecoding` | ruLLM/src/continuous_batch.rs:330-343 | Refuses exactly empty drafts and empty suffixes, and changes no request. |
| `PagedMemory.SlotsApart` | ruLLM/src/paged_attention.rs:198-202 | No two positions of any two sequences lead to the same slot. |
| `PagedMemory.WriteNext` | ruLLM/src/paged_attention.rs:198-206 | Writing a sequence's next token leaves every other token of every sequence where its table leads. |
| `PagedMemory.MirrorsTrimmed` | ruLLM/src/paged_kv.rs:473-530 | Committing, cancelling and removing give back only pages beyond what stays cached. |
| `PagedMemory.MirrorsPlanned` | ruLLM/src/continuous_batch.rs:427-510 | Admission, preemption and reservation move no token that stays cached. |
| `PagedEngine.Engine.Execute` | ruLLM/src/paged_engine.rs:127-190 | Refuses exactly empty, ragged, out-of-vocabulary or out-of-pool batches without a write; otherwise every row is answered from what its request had stored followed by the row's own tokens. |
| `PagedEngine.CompletedMirrors` | ruLLM/src/paged_engine.rs:421-506 | After a completed batch the device holds exactly what the scheduler counts as cached, the accepted part of every draft included. |
| `PagedEngine.Runner.Submit` | ruLLM/src/paged_engine.rs:275-323 | Accepts exactly the admissible requests inside the vocabulary. |
| `PagedEngine.Runner.Cancel` | ruLLM/src/paged_engine.rs:342-346 | Cancellation keeps the device and the scheduler in step. |
| `PagedEngine.Runner.RunBatch` | ruLLM/src/paged_engine.rs:421-506 | A batch is completed from the device's own readings or still in flight, and in both cases memory and scheduler agree. |
| `PagedEngine.Runner.Step` | ruLLM/src/paged_engine.rs:372-419 | A failed batch is rolled back before the error is returned; without a failure the step progresses, or finds no work if the pool holds one maximal sequence. |
| `PagedEngine.Runner.RunUntilIdle` | ruLLM/src/paged_engine.rs:513-544 | Ends; on success every request that was not cancelled has exactly one result, the results come in order, and each greedy one is the single-sequence decoder's output; with a pool for one maximal sequence it never stalls. |
| `PagedEngine.Serve` | ruLLM/src/paged_engine.rs:513-544 | A list of requests, any page pool, budgets, drafts, sampler and failing batches: success means that each request is answered once and each greedy one as by the single-sequence decoder, and failure has one of the named causes. |
| `CausalDraft.ReplayKeeps` | ruLLM/src/causal_draft_batch.rs:148-157 | Replaying an accepted candidate from the deltas advances both caches, and the stored logits are the target's at the new context. |
| `CausalDraft.Propose` | ruLLM/src/causal_draft_batch.rs:173-192 | The proposals are the draft's own greedy continuation. |
| `CausalDraft.CausalDraftBatch.Replay` | ruLLM/src/causal_draft_batch.rs:148-157 | A hit appends the token to both caches and returns the target's logits; the cursor stays valid. |
| `CausalDraft.CausalDraftBatch.RunAhead` | ruLLM/src/causal_draft_batch.rs:172-211 | Drafting, verifying, capturing and truncating leaves both caches at the row's context, with the target's logits there and a valid pending verification. |
| `CausalDraft.CausalDraftBatch.DecodeBatch` | ruLLM/src/causal_draft_batch.rs:141-214 | Fails exactly if a row has not one token; otherwise every row's output is the target's logits at its context, both caches agree there, no other request changes, and what stays pending is the rest of an accepted draft or as many new proposals of the draft model as reservation, draft length and sequence limit allow. |
| `CausalDraft.CausalDraftBatch.PrefillBatch` | ruLLM/src/causal_draft_batch.rs:137-140 | Drops pending verifications of the rows and lets both models read them. |
| `CausalDraft.CausalDraftBatch.SelectToken` | ruLLM/src/causal_draft_batch.rs:216-229 | A greedy request gets the target's choice; a pending verification survives exactly if it proposed it. |
| `CausalDraft.CausalDraftBatch.Retain` | ruLLM/src/causal_draft_batch.rs:120-124 | Exactly the kept requests stay, in both caches and among the pending verifications. |
| `CausalDraft.CausalDraftBatch.RestorePrefix` | ruLLM/src/causal_draft_batch.rs:261-266 | Both caches take the prefix and nothing is pending. |
| `CausalDraft.Decode` | ruLLM/src/causal_draft_batch.rs:135-229 | For any requests, any rounds, any lookahead and any draft model, every stream is the target's own greedy stream. |
| `DenseKv.HeldWrite` | ruLLM/src/batch_kv.rs:180-185 | Writing one position changes what the table holds there and nowhere else. |
| `DenseCache.TruncateKeeps` | ruLLM/src/batch_kv.rs:125-134 | Truncation keeps a prefix of the request and all of every other. |
| `DenseCache.AppendKeeps` | ruLLM/src/batch_kv.rs:154-188 | Appending adds one element and touches no other request. |
| `DenseCache.GatherSpan` | ruLLM/src/batch_kv.rs:135-153 | Gathering the covering pages and cutting yields the logical span. |
| `DenseCache.CopyPages` | ruLLM/src/batch_kv.rs:256-271 | Copying page by page makes the table hold the values and changes only its pages. |
| `DenseBatchCaches.DenseBatchCache.Truncate` | ruLLM/src/batch_kv.rs:125-134 | Succeeds exactly within the known length. |
| `DenseBatchCaches.DenseBatchCache.CaptureDelta` | ruLLM/src/batch_kv.rs:135-153 | Succeeds exactly on a known span and captures its logical contents. |
| `DenseBatchCaches.DenseBatchCache.AppendDelta` | ruLLM/src/batch_kv.rs:154-188 | Succeeds exactly on an acceptable destination and appends the captured element. |
| `DenseBatchCaches.DenseBatchCache.CapturePrefix` | ruLLM/src/batch_kv.rs:228-246 | Captures the whole logical contents. |
| `DenseBatchCaches.DenseBatchCache.RestorePrefix` | ruLLM/src/batch_kv.rs:247-274 | Succeeds exactly on free distinct pages; the new request then holds the captured contents and no other changes. |
| `DenseBatchCaches.ValidateRows` | ruLLM/src/batch_kv.rs:189-216 | Accepts exactly the batches of distinct requests with fitting rows on pages nobody else owns. |
| `DenseBatchCaches.DenseBatchCache.Commit` | ruLLM/src/batch_kv.rs:217-222 | After an accepted batch every row's request has grown by its values and no other has changed. |
| `DenseBatchCaches.ReplayRestores` | ruLLM/src/batch_kv.rs:125-188 | Capture, truncate, then append one by one: at every intermediate length the logical contents are the original ones, whatever pages are named. |
| `Rings.RootPeriodic` | ruFFT/src/double.rs:135-136 | Exponents of a root count modulo its order. |
| `ComplexNumbers.ComplexIsRing` | ruFFT/src/double.rs:122-127 | Complex numbers with sine and cosine satisfy every law the transforms use, the primitivity of their roots included. |
| `Fourier.DftSplits` | ruFFT/src/cpu_reference.rs:245-255 | A transform of even length is two of half the length. |
| `Fourier.RecursiveIsDft` | ruFFT/src/cpu_reference.rs:239-256 | The recursive form computes the transform sum, in both directions. |
| `Fourier.Inversion` | ruFFT/src/double.rs:236-262 | Summing the spectrum against conjugate roots gives each element back, times the length, for powers of two in any ring and for every length where roots are primitive. |
| `Fourier.RootsVanish` | ruFFT/src/double.rs:236-262 | The powers of a nontrivial root of any order add up to zero. |
| `Fourier.ImpulseResponse` | ruFFT/src/cpu_reference.rs:239-256 | The transform of an impulse is one root, turned by its place and the output's. |
| `Butterflies.RevTwice` | ruFFT/src/double.rs:31-41 | Bit reversal is an involution. |
| `Butterflies.RevInWord` | ruFFT/src/double.rs:32-36 | Reversing the whole machine word and shifting reverses the index. |
| `Butterflies.DecimateIsReversal` | ruFFT/src/double.rs:31-41 | The recursion's order of the elements is bit reversal. |
| `Butterflies.LevelsAreRecursive` | ruFFT/src/double.rs:42-65 | All stages on the reversed order are the recursive form. |
| `CoefficientFft.ReverseOrder` | ruFFT/src/double.rs:31-41 | The exchange loop permutes the array into reversed order. |
| `CoefficientFft.InPlaceStage` | ruFFT/src/double.rs:43-60 | One in-place sweep of butterflies is one stage. |
| `CoefficientFft.CoefficientFft` | ruFFT/src/double.rs:28-66 | For every power of two the array ends as the recursive form's result and as the transform sum. |
| `FftKernels.Reverse` | ruFFT/src/double.rs:365-372 | The shifting loop reverses the low bits. |
| `FftKernels.TwiddleIndex` | ruFFT/src/double.rs:453-461 | Entry `k * (n / 2half)` of the table is the k-th root of order `2half`, and its conjugate the inverse one. |
| `FftKernels.Butterfly` | ruFFT/src/double.rs:436-468 | One launch is one stage; every element has exactly one writer. |
| `Bluestein.ConvolutionTheorem` | ruFFT/src/double.rs:245-262 | Multiplying spectra and transforming back convolves, times the length. |
| `Bluestein.ChirpIsSquare` | ruFFT/src/double.rs:135-136 | Reducing the square modulo twice the length loses nothing. |
| `Bluestein.ChirpsMakeRoot` | ruFFT/src/double.rs:134-146 | The chirps of input, output and distance multiply to the root of their product. |
| `Bluestein.ChirpConvolution` | ruFFT/src/double.rs:134-146 | For every length, the convolution with the chirp is the transform sum. |
| `FftPlan.PartTableNext` | ruFFT/src/double.rs:138-145 | The two halves of the convolution table never overlap while it is filled. |
| `FftPlan.MakeChirp` | ruFFT/src/double.rs:128-146 | Fills the chirp and the convolution table. |
| `FftPlan.DoubleFftPlan.Prepare` | ruFFT/src/double.rs:375-433 | The padded, possibly chirped input is written in reversed order. |
| `FftPlan.DoubleFftPlan.Radix` | ruFFT/src/double.rs:289-314 | The ping-pong passes run all stages and return the buffer that holds the result. |
| `FftPlan.DoubleFftPlan.ProductReverse` | ruFFT/src/double.rs:471-489 | The product with the stored spectrum is written in reversed order. |
| `FftPlan.Finish` | ruFFT/src/double.rs:492-533 | The output is the buffer times the chirp, if any, times the scale. |
| `FftPlan.DoubleFftPlan.Run` | ruFFT/src/double.rs:180-287 | For every length, power of two or not, the output is the transform of the padded input, scaled when asked. |
| `FftPlan.NewPlan` | ruFFT/src/double.rs:82-168 | A plan exists exactly for positive lengths whose workspace can be indexed. |
| `FftPlan.TransformInverts` | ruFFT/src/double.rs:171-178 | The normalized inverse sum of the forward sums is the input, for every length. |
| `FftPlan.Transform` | ruFFT/src/double.rs:82-178 | A plan made for an input's length and run on it delivers the transform sum at every index. |
| `FftPlan.RoundTrip` | ruFFT/src/double.rs:171-178 | For every length that plans accept, running a forward plan and then a normalizing inverse plan gives the input back. |
| `FftPlan.ForwardTurnsClockwise` | ruFFT/src/double.rs:122-127 | Forward, an impulse at place one of four comes out as -i at index one, and inverse as i. |
| `Softmax.StepSummarises` | ruDNN/src/dense_attention.rs:120-142 | One online-softmax step keeps the state a summary relative to the largest allowed score. |
| `Softmax.AttentionAt` | ruDNN/src/dense_attention.rs:144-153 | The reference score cancels: the quotient is the plain weighted average. |
| `Softmax.AttentionPermuted` | ruDNN/src/ring_attention.rs:65-108 | The average does not depend on the order of the keys. |
| `AttentionKernels.DenseForward` | ruDNN/src/dense_attention.rs:99-154 | One pass equals the weighted average by plain exponentials over the allowed keys, zero without any; the statistics are the largest score and its sum. |
| `AttentionKernels.ScanVisible` | ruDNN/src/dense_attention_split.rs:140-167 | Scanning more keys extends what the state summarises. |
| `AttentionKernels.Merge` | ruDNN/src/dense_attention_split.rs:180-219 | Partial states, empty ones included, merge to the average over all keys. |
| `AttentionKernels.MergeWarps` | ruDNN/src/attention_state.rs:9-55 | The warps' states merge to one summary of all their keys. |
| `AttentionKernels.SplitsTile` | ruDNN/src/dense_attention_split.rs:137-139 | The split ranges tile the keys for every split count. |
| `AttentionKernels.WarpsTile` | ruDNN/src/varlen_attention.rs:72-75 | The warp ranges tile the keys for every warp count. |
| `AttentionKernels.SplitAttention` | ruDNN/src/dense_attention_split.rs:113-219 | For every number of splits the result is the unsplit one. |
| `AttentionKernels.WarpAttention` | ruDNN/src/varlen_attention.rs:70-119 | For every number of warps the result is the single-warp one. |
| `AttentionKernels.RingRow.Forward` | ruDNN/src/ring_attention.rs:37-108 | After a block the state summarises the block as well. |
| `AttentionKernels.RingRow.Normalize` | ruDNN/src/ring_attention.rs:111-121 | The output is the average over all blocks seen. |
| `AttentionKernels.RingAttention` | ruDNN/src/ring_attention.rs:65-121 | Any partition into blocks, in any order, normalizes to the single-block result. |
| `AttentionBackward.DeltaIsExpected` | ruDNN/src/ring_attention.rs:153-163 | Gradient times output equals the dense kernel's expectation, dropout multipliers included. |
| `AttentionBackward.ScoreGradientsCancel` | ruDNN/src/dense_attention.rs:222-225 | The score gradients of a row add up to zero. |
| `AttentionBackward.DsIsSlope` | ruDNN/src/dense_attention.rs:222-225 | The score gradient is the slope of the weighed output in that score, as an exact difference: for every raise h of an allowed score the output, times the new sum of weights, changes by (exp(h) - 1) times the gradient times the old sum; a raise of a masked score changes nothing. |
| `AttentionBackward.SlopeRatio` | ruDNN/src/ring_attention.rs:184-193 | The same as a quotient: the change is (exp(h) - 1) times the gradient over one plus (exp(h) - 1) times the probability. |
| `AttentionBackward.QueryIsSlope` | ruDNN/src/dense_attention.rs:226-255 | Along every change of the query the query gradient is the sum of the score gradients times the scores that the change causes. |
| `AttentionBackward.DenseBackward` | ruDNN/src/dense_attention.rs:188-255 | The two passes return the slope of the output, weighed by the incoming gradient, in every score, and its slope along every change of the query. |
| `AttentionBackward.RingBackward` | ruDNN/src/ring_attention.rs:153-214 | A block adds exactly its keys' terms of the dense gradients, and its score gradients are the slopes of the whole row's output. |
| `AttentionBackward.RingGradient` | ruDNN/src/ring_attention.rs:164-214 | Over any partition and order the query gradient is the dense one, and so the slope along every change of the query. |
| `Philox.CarryAddition` | ruDNN/src/dense_attention.rs:46-53 | Adding word by word with the detected carry is 64-bit addition. |
| `Philox.RunRounds` | ruDNN/src/dense_attention.rs:25-36 | The in-place rounds compute the block function, and so the rounds with their keys in closed form. |
| `Philox.ProductSplits` | ruDNN/src/dense_attention.rs:30-33 | The high and low words of a product are the 64-bit product. |
| `Philox.RoundsAreFolded` | ruDNN/src/dense_attention.rs:25-36 | Round n uses the key plus n increments, for every number of rounds. |
| `Philox.KnownRound` | ruDNN/src/dense_attention.rs:30-35 | A known answer of one round, each product and each key word in its place. |
| `Philox.OutputMeans` | ruDNN/src/dense_attention.rs:20-39 | Ten rounds on the counter, low word first, with the lanes in order. |
| `Philox.RoundsInjective` | ruDNN/src/dense_attention.rs:27-36 | Under each key distinct blocks never share a 128-bit output. |
| `Philox.KeepAgreesWithGlobal` | ruDNN/src/dense_attention.rs:20-54 | Both entry points read the same word wherever both apply. |
| `Philox.GlobalIsExact` | ruDNN/src/dense_attention.rs:47-54 | The global counter is base plus block as 64-bit numbers. |
| `Philox.RingCounterIsExact` | ruDNN/src/ring_attention.rs:27-32 | The ring's counter is base plus row times blocks plus key block. |
| `Philox.VarlenCounterIsExact` | ruDNN/src/varlen_attention.rs:50-59 | With the document offset on top, likewise. |
| `Philox.PlacesDiffer` | ruDNN/src/ring_attention.rs:20-34 | Places in different rows or blocks of four keys never share an output. |
| `Indexing.LongDivision` | ruDNN/src/indexing.rs:19-40 | The bit loop divides the product without ever exceeding the index range. |
| `Indexing.ScaledIndexDivision` | ruDNN/src/indexing.rs:5-42 | On all three paths: exact quotient and remainder, and no intermediate overflow, whenever the quotient fits. |
| `ExpertTiles.TileTable` | ruDNN/src/grouped_fp8.rs:7-19 | The table holds the exclusive prefix sums of the tile counts. |
| `ExpertTiles.TileExpert` | ruDNN/src/grouped_fp8.rs:22-33 | The fixed number of halvings finds the expert whose interval contains the tile. |
| `ExpertTiles.OwnerUnique` | ruDNN/src/grouped_fp8.rs:22-33 | That expert is unique; experts without rows own nothing. |
| `ExpertTiles.BlockVisits` | ruDNN/src/grouped_fp8.rs:48-58 | A block visits exactly its stride of tiles and computes their expert, rows and columns. |
| `ExpertTiles.TileVisitedOnce` | ruDNN/src/grouped_fp8.rs:165-165 | Over all blocks of any grid, each tile is visited by exactly one block in exactly one round. |
| `ExpertTiles.ElementCovered` | ruDNN/src/grouped_fp8.rs:52-58 | Every expert row and column is covered by the visit of its tile. |
| `ExpertTiles.ElementCoveredOnce` | ruDNN/src/grouped_fp8.rs:52-58 | No other visit covers it. |
| `ExpertTiles.GridVisits` | ruDNN/src/grouped_fp8.rs:48-58 | For every grid and all counts, zeros included, each row below its expert's count is written in every column by exactly one round of one block, and nothing else is written. |
| `ExpertTiles.ElementWrittenOnce` | ruDNN/src/grouped_fp8.rs:52-58 | Existence and uniqueness of that round. |
| `ExpertTiles.Document` | ruDNN/src/varlen_attention.rs:6-15 | The search finds the first document that ends after the token. |
| `WarpRouting.GroupScore` | ruDNN/src/warp_routing.rs:36-60 | A group's score is its best lane, or the largest sum of two different lanes. |
| `WarpRouting.KeepGroups` | ruDNN/src/warp_routing.rs:64-75 | The kept groups are the best by score, ties to the lower group. |
| `WarpRouting.Select` | ruDNN/src/warp_routing.rs:76-113 | The chosen experts are the first of the kept groups' ranking, with their probabilities and their sum. |
| `WarpRouting.Route` | ruDNN/src/warp_routing.rs:26-113 | The whole selection: group scores, kept groups and chosen experts are each as stated above. |
| `WarpRouting.PicksAreTop` | ruDNN/src/warp_routing.rs:76-113 | Such choices are distinct, sorted by score descending then index ascending, and nothing left out beats them. |
| `WarpRouting.PicksUnique` | ruDNN/src/warp_routing.rs:76-113 | The ranking determines the choices. |
| `PrefixTiers.DropSound` | ruLLM/src/batch_prefix.rs:188-195 | Discarding keeps the counters equal to the sums and never subtracts too much. |
| `PrefixTiers.MakeRoom` | ruLLM/src/batch_prefix.rs:196-207 | Evicting oldest first always reaches the limit; the accounting error cannot occur. |
| `PrefixPolicy.MakeRoomEvicts` | ruLLM/src/batch_prefix.rs:196-207 | What stays on disk is newer than what went, is unchanged, and the last to go was needed. |
| `PrefixPolicy.DemoteOneMoves` | ruLLM/src/batch_prefix.rs:169-180 | The oldest device entry goes to the host exactly if its bytes fit there, else to disk exactly if its file fits, else away, with its bytes and stamp; nobody else above the disk moves, and a failure means an encoding or a file that cannot be made. |
| `PrefixTiers.InsertTo` | ruLLM/src/batch_prefix.rs:164-187 | Accounting, stamps, device and disk budgets always hold afterwards; a successful call ends within all budgets if and only if the key was new or they held before. |
| `PrefixPolicy.SpillPasses` | ruLLM/src/batch_prefix.rs:181-185 | Spilling passes host entries down oldest first, unchanged, and no more of them than needed. |
| `PrefixPolicy.InsertPassesDown` | ruLLM/src/batch_prefix.rs:164-187 | After inserting a new key every entry is the new prefix or an old entry, in its tier or passed down with its bytes and stamp; every tier kept its newest; a success fills the device as far as it may; a failure has its cause in an entry. |
| `PrefixTiers.BudgetMissed` | ruLLM/src/batch_prefix.rs:168-187 | Four inserts into an empty store on a disk that cannot be written, after which a success leaves the host over its budget. |
| `PrefixStores.PrefixStore.EvictDisk` | ruLLM/src/batch_prefix.rs:196-200 | While disk bytes are accounted there is an entry to evict, and the oldest goes. |
| `PrefixStores.PrefixStore.PutOnDisk` | ruLLM/src/batch_prefix.rs:201-226 | Evicts until the file fits, then writes, skips or fails. |
| `PrefixStores.PrefixStore.Insert` | ruLLM/src/batch_prefix.rs:164-187 | The loops compute the tier steps above; neither eviction can find its tier empty; entries are passed down as above. |
| `PrefixStores.PrefixStore.Lookup` | ruLLM/src/batch_prefix.rs:137-163 | Returns the longest restorable stored prefix and stamps it, discards only unrestorable prefixes of the prompt, leaves every other entry alone, and terminates. |
| `Events.HermiteEnds` | ruINTEGRATE/src/events.rs:75-79 | The interpolant meets both ends of the step. |
| `Events.HermiteIsCubic` | ruINTEGRATE/src/events.rs:75-79 | The interpolant is the cubic with the step's values and slopes at both ends, at every place and in both directions of integration. |
| `Events.SortHits` | ruINTEGRATE/src/events.rs:64-64 | The events are permuted into the order of integration, then index. |
| `Events.DirectionMeans` | ruINTEGRATE/src/events.rs:45-48 | A crossing is wanted by the direction of physical time, also when integrating backwards. |
| `Events.Tracker.Initial` | ruINTEGRATE/src/events.rs:30-34 | Exactly the events that are zero at the start are reported there, and the run stops exactly if one is terminal. |
| `Events.Tracker.Bisect` | ruINTEGRATE/src/events.rs:49-60 | A found event is a zero or the middle of a sign-change bracket no wider than the tolerance at its time; it fails only after all its halvings without one. |
| `Events.Tracker.Track` | ruINTEGRATE/src/events.rs:39-73 | A step's reports are crossings in the wanted direction, at most one per event, located as above, in order and none within the tolerance of its event's last report; a stop is the first terminal one's time and state and none lies beyond it; every crossing is reported, was reported just before, or lies beyond the stop; it fails only when a location or the output limit does. |
| `EventLog.RunsOn` | ruINTEGRATE/src/events.rs:62-73 | A step without a stop keeps the whole log in order, sound, complete and free of terminal events. |
| `EventLog.HaltsInside` | ruINTEGRATE/src/events.rs:62-73 | A stop ends the log inside its step: a terminal event at the final time and state, none earlier and nothing later. |
| `EventLog.ReportsAnswer` | ruINTEGRATE/src/events.rs:61-61 | A crossing suppressed as already reported has a report of its event within the tolerance. |
| `Ode.TableauConsistent` | ruINTEGRATE/src/ode.rs:43-53 | Rows add up to their nodes and both weights to one. |
| `OdeOrder.OrderFour` | ruINTEGRATE/src/ode.rs:43-53 | Both sets of weights meet all eight order conditions through order four. |
| `OdeOrder.OrderFive` | ruINTEGRATE/src/ode.rs:43-53 | The result's weights meet the nine further conditions of order five. |
| `Ode.Attempt` | ruINTEGRATE/src/ode.rs:169-187 | The six stages follow the tableau, and the last slope is the derivative at the candidate. |
| `OdeOrder.AttemptIntegrates` | ruINTEGRATE/src/ode.rs:169-187 | If the derivative is a polynomial in time of degree at most four, an attempt returns its exact integral. |
| `OdeOrder.AttemptGrows` | ruINTEGRATE/src/ode.rs:169-187 | On the linear equation an attempt multiplies the state by 1 + z + z^2/2 + z^3/6 + z^4/24 + z^5/120 + z^6/600. |
| `Ode.ErrorNorm` | ruINTEGRATE/src/ode.rs:188-208 | A step is acceptable exactly if every component's error estimate is within its tolerance. |
| `OdeOrder.CubicsHaveNoError` | ruINTEGRATE/src/ode.rs:188-194 | For derivatives of degree at most three the estimated error is zero. |
| `Ode.Grown` | ruINTEGRATE/src/ode.rs:227-236 | After an accepted step the next one is the predicted one with the safety factor, clamped, capped, and not longer after a rejection. |
| `Ode.Shrunk` | ruINTEGRATE/src/ode.rs:238-240 | After a rejection the next step is shorter, by the predicted factor within its clamp. |
| `Ode.AimsBelowTolerance` | ruINTEGRATE/src/ode.rs:227-239 | With the fifth root as the prediction, the error predicted for the next step is 0.59 of the tolerance. |
| `Ode.OneTurn` | ruINTEGRATE/src/ode.rs:144-241 | Each loop head keeps the reused derivative, the evaluation count and budget, ordered samples within the limit, time inside the interval, the chain of accurate steps and the event log; going on means one more step, or an attempt of the current length that the tolerance refuses; every end status has its reason. |
| `Ode.Solve` | ruINTEGRATE/src/ode.rs:91-245 | The accepted steps are a chain from the start, each following the tableau within tolerance; samples are its points; the run ends at its end or inside its last step at an event; one plus six evaluations per attempt within budget; every status and every failure has its reason. |
| `OdeOrder.RunIntegrates` | ruINTEGRATE/src/ode.rs:91-245 | However many steps a run takes, with a derivative of degree at most four in time its result is the exact integral. |
| `Ode.SolveEvents` | ruINTEGRATE/src/events.rs:86-94 | Over the whole run: events in order, each a zero at the start or located on an accepted step; every crossing answered within the tolerance unless beyond the stop; status Event exactly with a terminal event at the final time and state, none earlier and no event later. |
| `OdeOrder.InterpolantIntegrates` | ruINTEGRATE/src/events.rs:75-79 | With a quadratic derivative the interpolant on every accepted step is the exact integral throughout. |

## Left out

- Prefix caching inside the page manager (shared pages, hashed blocks): the manager is modelled with it off; the protocol's admission event covers any cached prefix shorter than the prompt.
- The admission policy that reserves whole sequences, lookahead reservations (`reserve_lookahead`, `extend_append`), swapping of active requests and the setters of the token limit, the deferrals and the admission ceiling.
- Sampled requests: they take part in every run and in every structural invariant, but the stream theorems are about greedy ones. The same holds of the draft decoder's sampling path.
- Fairness, and how many batches a run takes: every `schedule` call progresses and `run_until_idle` ends at the latest when the 64-bit batch numbers are used up.
- PagedEngine.Engine.Execute: a slot stands for the key and value of one token of one layer and head; the flattened copy of the block tables, rotary tables, attention windows and logits are not modelled, and the model and the samplers are arbitrary functions of the context read.
- PagedEngine.Runner.Step: which batches fail on the device is an arbitrary function; log probabilities and step reports are not modelled.
- PagedKv.Manager.BeginAppend: reservation numbers are unbounded; the source reports an error when a 64-bit counter runs out.
- Generation.GenerateGreedy: stop sequences, streaming callbacks and cancellation are not modelled.
- CausalDraft.CausalDraftBatch.DecodeBatch: rows of one lookahead group go through the models one after the other; page tables, tensor shapes and device errors are not modelled here, and caches are the tokens whose state they hold.
- DenseBatchCaches.DenseBatchCache.Commit: contains the writes that the attention layers make before `commit`; rotary histories, tensor geometry and the 32-bit page index limit are not modelled.
- FftPlan.DoubleFftPlan.Run: one contiguous row of complex values; strides, axes, several rows, the Hermitian layout and the separate real and imaginary arrays are not modelled.
- AttentionKernels.DenseForward: one query row with scores, masks and dropout multipliers given; lanes, head grouping, soft capping and the shared-memory layout are not modelled, nor are `partial_parallel`, `merge_parallel` and the flash variants.
- AttentionBackward.RingBackward: without soft capping; the key and value gradients are determined by the returned score gradients but their atomic additions are not modelled.
- Philox.KeepAgreesWithGlobal: compares the random words; the comparison with the dropout probability that follows is the same expression in both.
- WarpRouting.Route: scores without NaN, with at most as many groups and experts requested as there are.
- PrefixStores.PrefixStore.Insert: the prefix has passed its validation; file framing, locks, file names and reading a directory at start are not modelled, and encoding, writing and restoring are given functions.
- Events.Tracker.Track: finiteness checks are vacuous over the reals; the extra exit of the bisection when the midpoint equals an end cannot occur.
- Ode.Solve: callbacks are total deterministic functions and the step-size power is any function; overflow checks are vacuous over the reals. The order conditions and exact cases are proved; an error bound for arbitrary derivatives is not.
- Floating-point rounding, infinities and NaN everywhere; fast-math; integer overflow of `usize` except where stated.
- Model forward passes, other FFT layouts, quadrature, stiff solvers, tensor-core kernels, autotuning, serialization, networking and the website.
