# Verified model of vllm-oxide

A Dafny model of the parts of vllm-oxide whose correctness is not visible from one body:
the token sampler, the KV-cache block pool, the GPU memory monitor, the canonical archive transport, the logit
capture, tiled attention, the release gate and the benchmark figures.  `dafny verify
dfyconfig.toml` checks the whole project.

Arithmetic on logits, scores and rates is over exact reals; sizes, times and counters are
unbounded integers with the 64-bit and 32-bit checks of the code written out.  What the
outside world returns (reads of a stream, directory listings, file contents, noise, clock
readings, provider answers, comparison results) is part of the input.

## What is modelled

- **Sampler** (`Logits`, `SamplerMasks`, `Sampler`, `SamplerGuarantees`).  Penalties,
  temperature, top-k, top-p and the Gumbel draw, once in place and once on score
  differences.  Both are proved against one declarative specification, so they pick the
  same token for every finite row, history and noise sequence; rows with infinite logits
  take the in-place path.
- **KV cache** (`BlockPools`, `BlockPoolOps`, `PrefixCache`, `PrefixCacheSteps`, `KvContents`,
  `CacheRuns`).  The block pool with its free list, reference counts and prefix index, for
  an arbitrary hash function.  Over every run of calls the counts are the numbers of
  holders, a block to be written belongs to one sequence alone, and every cached position
  of every sequence holds the entry of that sequence's own tokens.
- **Memory monitor** (`MonitorTrace`, `MonitorProtocol`, `MonitorSafety`, `MonitorWitness`).
  Worker and parent as atomic steps over channels, a trace and a monotone clock.  An
  invariant kept by every step gives coverage, ordering and timing of accepted evidence
  over all interleavings.
- **Archive transport** (`Ustar`, `UstarHeader`, `Inventory`, `Extraction`,
  `TrackingReader`).  The header of the ustar interchange format (pax utility, IEEE Std
  1003.1), the path inventory, and the streaming extraction, which is inverse to a writer
  and independent of how reads are split.
- **Capture** (`CaptureWire`, `CaptureValidators`, `CaptureEquivalence`, `CaptureSessions`,
  `CaptureRefusals`, `OutputOrder`).  Interleaved rows are demultiplexed and re-emitted; two
  independent validators accept exactly the canonical artifacts; whole runs publish exactly
  under a stated condition on the refused batches.
- **Attention** (`Tensors`, `AttentionOps`, `AttentionMask`, `Attention`, `AttentionSplit`,
  `AttentionLayout`, `AttentionPaged`).  Row-major tensors, head expansion, query tiles with
  zero-row padding, the masked softmax kernels, head splitting, the gather from pages and the
  two batch layouts, all equal to one untiled definition.
- **Release gate** (`ReleaseManifest`, `ReleaseLifecycle`, `ReleaseGate`, `ReleaseVerdict`,
  `ReleaseDuplicates`, `ReleaseWitness`).  Manifest contract, lifecycle sets, driver and
  verdict.  The verdict reads only counts, yet for an accepted manifest it is exact.
- **Figures** (`Telemetry`, `TelemetryAudit`, `TelemetryExchange`, `SharedPrefix`,
  `SharedPrefixLaws`, `Calibration`, `Percentile`).  Telemetry accounting by its producer and
  by its consumer, same-prefix comparison, calibration aggregates and percentiles.
- `Options`, `Sequences`, `Numbers` and `RealOrder` hold shared definitions.

## Where a property needs a condition

- The two capture validators do not agree for arbitrary outputs.  They agree if and only if
  the outputs carry the bound identities; ordering the outputs as the generation does
  establishes that.
- A passing release report has an empty failure list only because the manifest contract
  forbids repeated generated fixtures: a fixture that cannot be read is reported without
  being marked failed.  For a manifest that meets the rest of the contract and has a passing
  run, all its passing reports are free of failures if and only if its generated fixtures are
  unique.  Manifests are validated before a run, so the program itself never gets that far
  with a repeated entry.
- The fused and the separate softmax differ on a real query that sees no key; the metadata
  check rules such members out.
- The consumer accepts the producer's telemetry if and only if every request emitted exactly
  64 tokens; the producer itself does not require that.
- The aggregate percentiles of an accepted calibration are not bounded below.  The check
  demands of them exactly that they are ordered and do not exceed the largest error.
- A capture row for an unknown request is refused without marking the session failed, so not
  every refusal blocks publication.  A refusal blocks it exactly if the first row that does
  not fit fails another check, or if an unknown row passed the value checks and nothing is
  ever recorded.  The generation loop itself stops at the first refusal.

## Model

| member | source | states |
|---|---|---|
| `Logits.FirstMaxUnique` | crates/vllm-oxide/src/sampler.rs:718-730 | a row has only one lowest-index maximum, so "the sampled token" is well defined |
| `Sampler.CountTokens` | crates/vllm-oxide/src/sampler.rs:745-756 | the count table holds exactly the in-vocabulary tokens of the history, each with its number of occurrences |
| `Sampler.ApplyPenalties` | crates/vllm-oxide/src/sampler.rs:745-770 | every logit becomes its penalised value (repetition, then presence and frequency for tokens that occurred), the others are untouched |
| `Sampler.Argmax` | crates/vllm-oxide/src/sampler.rs:718-730 | returns the lowest index of a largest score, minus infinity included |
| `SamplerMasks.SelectNth` | crates/vllm-oxide/src/sampler.rs:777-792 | the selection contract only: a permutation whose pivot separates larger from smaller scores |
| `SamplerMasks.SelectionThreshold` | crates/vllm-oxide/src/sampler.rs:777-792 | whatever partition the selection made, a score is below the pivot exactly when at least k scores are strictly larger |
| `SamplerMasks.MaskTopK` | crates/vllm-oxide/src/sampler.rs:777-792 | in place: the survivors are exactly the tokens with fewer than k strictly larger logits |
| `SamplerMasks.StableSortDescending` | crates/vllm-oxide/src/sampler.rs:801-807 | the order used by top-p: a permutation, descending, ties by index |
| `SamplerMasks.NucleusCutoff` | crates/vllm-oxide/src/sampler.rs:817-826 | the running sum of normalised weights first reaches p at the returned rank |
| `SamplerMasks.CutoffIsNucleus` | crates/vllm-oxide/src/sampler.rs:801-833 | cutting the sorted order at that rank keeps exactly the tokens whose predecessors carry less than p of the mass |
| `SamplerMasks.MaskTopP` | crates/vllm-oxide/src/sampler.rs:801-833 | in place: the row becomes its declarative nucleus; a row whose largest score is infinite is left alone |
| `Sampler.TwoSum` | crates/vllm-oxide/src/sampler.rs:680-685 | over exact reals the sum is exact and the error term vanishes |
| `Sampler.WideDifference` | crates/vllm-oxide/src/sampler.rs:649-677 | the difference of two wide scores is the difference of the penalised logits |
| `Sampler.WideRowDifference` | crates/vllm-oxide/src/sampler.rs:689-713 | the same for every pair of a row, with the history counts of that row |
| `Sampler.CoolDifference` | crates/vllm-oxide/src/sampler.rs:529-573 | dividing a difference by the temperature (or sending it to zero at infinite temperature) commutes with taking the difference |
| `Sampler.ShiftKeepsFirstMax` | crates/vllm-oxide/src/sampler.rs:529-573 | subtracting a constant keeps the lowest-index maximum |
| `Sampler.ShiftTopK` | crates/vllm-oxide/src/sampler.rs:529-573 | subtracting a constant keeps the top-k set |
| `Sampler.ShiftNucleus` | crates/vllm-oxide/src/sampler.rs:529-573 | subtracting a constant keeps the nucleus |
| `Sampler.NormalisedIsShifted` | crates/vllm-oxide/src/sampler.rs:529-573 | the row the wide path works on is the cooled ordinary row minus its maximum |
| `Sampler.WideDrawsTheSame` | crates/vllm-oxide/src/sampler.rs:529-573 | for every finite row, parameters, history and noise: a token is the wide draw exactly when it is the ordinary draw |
| `Sampler.SampleUnique` | crates/vllm-oxide/src/sampler.rs:469-527 | the specification of a sample determines the token |
| `Sampler.RowSampler.GumbelArgmax` | crates/vllm-oxide/src/sampler.rs:577-599 | adds one noise value per position and returns the first maximum; consumes exactly one draw per position |
| `Sampler.RowSampler.SampleRowOrdinary` | crates/vllm-oxide/src/sampler.rs:469-527 | the in-place path returns the specified sample, infinite logits included, and consumes no noise when greedy |
| `Sampler.RowSampler.WideSamplingScores` | crates/vllm-oxide/src/sampler.rs:689-713 | base and count of every token, counts only when a penalty is set |
| `Sampler.RowSampler.SampleRowWide` | crates/vllm-oxide/src/sampler.rs:529-573 | the wide path, which never forms a penalised logit, returns the same specified sample |
| `Sampler.RowSampler.SampleRowHost` | crates/vllm-oxide/src/sampler.rs:469-527 | whatever the overflow predictor says, the same token and the same number of draws; a row with an infinite logit never takes the wide path |
| `SamplerGuarantees.NucleusIsShortestPrefix` | crates/vllm-oxide/src/sampler.rs:801-833 | the nucleus is the shortest prefix of the sorted order whose mass reaches p |
| `SamplerGuarantees.NucleusInsideSurvivors` | crates/vllm-oxide/src/sampler.rs:507-520 | a token in the nucleus after top-k has a finite score, so it is a top-k survivor |
| `SamplerGuarantees.TruncationKeepsMaximum` | crates/vllm-oxide/src/sampler.rs:777-833 | some maximum survives top-k followed by top-p |
| `SamplerGuarantees.DrawnTokenSurvives` | crates/vllm-oxide/src/sampler.rs:469-527 | for every noise sequence: with a finite largest score the token lies in the top-k set and in the nucleus, with an infinite one the first infinite score wins, and a row of minus infinities yields the first token |
| `SamplerGuarantees.CooledMaximum` | crates/vllm-oxide/src/sampler.rs:487-500 | neither penalties nor a finite temperature make or remove an infinite score |
| `BlockPools.SearchFinds` | crates/vllm-oxide/src/engine/block_pool.rs:209-222 | a look-up returns a block of the bucket that holds exactly the chain, and a used one if any is; it misses only if none does |
| `BlockPoolOps.CachedSound` | crates/vllm-oxide/src/engine/block_pool.rs:224-240 | each found block holds the tokens of the sequence up to it, and the walk stops at the first gap |
| `BlockPoolOps.CachedDistinct` | crates/vllm-oxide/src/engine/block_pool.rs:355-366 | a prefix is never found in the same block twice, so that check cannot fire |
| `BlockPoolOps.AlwaysChecksOut` | crates/vllm-oxide/src/engine/block_pool.rs:355-412 | in a valid pool none of the ownership checks of an allocation fires |
| `BlockPoolOps.AdmittedAllocates` | crates/vllm-oxide/src/engine/block_pool.rs:300-325 | what `can_allocate` admits, `allocate` grants, with exactly the promised cached blocks |
| `BlockPoolOps.BlockPool.CanAllocate` | crates/vllm-oxide/src/engine/block_pool.rs:300-325 | the number of reusable leading blocks, the last block excluded, or none if too few blocks are free |
| `BlockPoolOps.BlockPool.Allocate` | crates/vllm-oxide/src/engine/block_pool.rs:336-435 | refused exactly when the sequence has blocks, the cached prefix is too short or too few blocks are free; a refusal changes nothing |
| `BlockPoolOps.BlockPool.DeallocateBatch` | crates/vllm-oxide/src/engine/block_pool.rs:452-520 | releases a batch as one transaction, or refuses it without any change |
| `BlockPoolOps.BlockPool.MayAppendBatch` | crates/vllm-oxide/src/engine/block_pool.rs:557-605 | gives one block to every sequence that lacks one, or refuses without any change |
| `BlockPoolOps.BlockPool.HashBlocks` | crates/vllm-oxide/src/engine/block_pool.rs:616-647 | notes the completed blocks with their chained hashes and chains |
| `PrefixCache.AllocateKeepsInv` | crates/vllm-oxide/src/engine/block_pool.rs:336-435 | allocation keeps the invariant of all live sequences: counts, known prefixes, shared and private blocks |
| `PrefixCacheSteps.LiveReleasable` | crates/vllm-oxide/src/engine/block_pool.rs:452-505 | live sequences can always be released: no check of the release fires |
| `PrefixCacheSteps.ReleaseKeepsInv` | crates/vllm-oxide/src/engine/block_pool.rs:452-520 | releasing any of them keeps the invariant of the others |
| `PrefixCacheSteps.AppendKeepsInv` | crates/vllm-oxide/src/engine/block_pool.rs:557-605 | appending blocks keeps the invariant |
| `PrefixCacheSteps.CommitKeepsInv` | crates/vllm-oxide/src/engine/scheduler.rs:474-477 | hashing the completed blocks and advancing the cached count keeps the invariant; no other sequence sees a change |
| `KvContents.ComputeSlotMapping` | crates/vllm-oxide/src/engine/kv_cache_manager.rs:189-210 | the flat slot of every token, minus one for a token without block |
| `KvContents.WritesAreExclusive` | crates/vllm-oxide/src/engine/kv_cache_manager.rs:189-210 | a position still to be written shares its slot with no position of any other sequence |
| `KvContents.CommitKeepsContents` | crates/vllm-oxide/src/engine/scheduler.rs:474-477 | a step overwrites nothing that any sequence or any noted block relies on |
| `CacheRuns.NextKeepsGood` | crates/vllm-oxide/src/engine/block_pool.rs:300-647 | every call, granted or refused, keeps the invariant and the contents |
| `CacheRuns.CacheIsTransparent` | crates/vllm-oxide/src/engine/block_pool.rs:41-65 | after any run of calls, whatever the hash collides on, every cached position holds the entry of exactly that sequence's tokens up to it |
| `CacheRuns.OwnershipIsExact` | crates/vllm-oxide/src/engine/block_pool.rs:128-160 | after any run free and used blocks partition the pool and every reference count is the number of holders |
| `CacheRuns.HitsAreExact` | crates/vllm-oxide/src/engine/block_pool.rs:209-240 | after any run the look-up of a prefix succeeds if and only if some block holds it |
| `MonitorTrace.TraceStore.RetainSample` | crates/vllm-oxide-test/src/benchmark/nvml_monitor.rs:94-129 | the sample stays on record even when rejected; gap, span, code, memory and projection checks in the source order |
| `MonitorTrace.RetainKeepsGood` | crates/vllm-oxide-test/src/benchmark/nvml_monitor.rs:94-129 | an on-schedule sample retained without failure keeps the record gap-free, projected and strictly increasing |
| `MonitorTrace.ScheduleSpan` | crates/vllm-oxide-test/src/benchmark/nvml_monitor.rs:143-226 | after i further samples at least i intervals of 5 ms have passed |
| `MonitorTrace.FloorGap` | crates/vllm-oxide-test/src/benchmark/runner.rs:63-68 | rounding times down to milliseconds keeps samples apart and never widens a gap beyond the gap rounded up |
| `MonitorTrace.GoodSamplesValidate` | crates/vllm-oxide-test/src/benchmark.rs:117-157 | evidence validation never rejects a good record of at least two samples |
| `MonitorSafety.StepKeepsInv` | crates/vllm-oxide-test/src/benchmark/nvml_monitor.rs:131-294 | every atomic step of worker, parent or clock keeps the protocol invariant |
| `MonitorSafety.ReachableInv` | crates/vllm-oxide-test/src/benchmark/nvml_monitor.rs:131-294 | hence it holds in every state of every interleaving |
| `MonitorSafety.OnlyLastRecordPending` | crates/vllm-oxide-test/src/benchmark/nvml_monitor.rs:131-228 | in every reachable state only the last raw record can be open, and storage stays within its limit |
| `MonitorSafety.ExhaustionTakesTime` | crates/vllm-oxide-test/src/benchmark/nvml_monitor.rs:143-168 | storage exhaustion implies at least limit × 5 ms since the baseline |
| `MonitorSafety.EvidenceIffSucceeded` | crates/vllm-oxide-test/src/benchmark/nvml_monitor.rs:420-481 | evidence is returned exactly when neither side failed and the library was closed: no later check rejects such a run |
| `MonitorSafety.EvidenceCovers` | crates/vllm-oxide-test/src/benchmark/nvml_monitor.rs:453-481 | accepted evidence: observations 5 to 50 ms apart from baseline to final, only the last query final and entered at or after the finish request, close called once after all queries |
| `MonitorSafety.EvidenceFigures` | crates/vllm-oxide-test/src/benchmark/nvml_monitor.rs:453-481 | the published samples are the projections of all records and the peak is their true maximum |
| `MonitorWitness.SuccessIsReachable` | crates/vllm-oxide-test/src/benchmark/nvml_monitor.rs:230-294 | some interleaving ends with accepted evidence |
| `Ustar.FieldFits` | crates/vllm-oxide-test/src/release_transport.rs:213-233 | a number below 8^w prints in exactly w octal digits |
| `Ustar.OctalRoundTrip` | crates/vllm-oxide-test/src/release_transport.rs:213-233 | an octal field reads back as the number, and holds only octal digits |
| `Ustar.HeaderIsOneBlock` | crates/vllm-oxide-test/src/release_transport.rs:213-233 | the header is 512 bytes and its checksum stays below 8^6, for every admissible name and size up to 8^11 − 1 |
| `UstarHeader.HeaderReadsBack` | crates/vllm-oxide-test/src/release_transport.rs:213-233 | an independent reader recovers the size, and the stored checksum equals the sum of the blanked block |
| `UstarHeader.HeaderInjective` | crates/vllm-oxide-test/src/release_transport.rs:213-233 | equal headers imply equal file name and size |
| `UstarHeader.WriteHeader` | crates/vllm-oxide-test/src/release_transport.rs:213-233 | the in-place printer produces exactly the specified header |
| `Inventory.AncestorIsPrefix` | crates/vllm-oxide-test/src/release_transport.rs:159-169 | the joins of the proper leading parts of a path are exactly its ancestors, so the prefix loop meets all of them |
| `Inventory.HasAncestor` | crates/vllm-oxide-test/src/release_transport.rs:159-169 | the prefix loop finds a conflict exactly when some earlier path is an ancestor |
| `Inventory.NoLaterAncestor` | crates/vllm-oxide-test/src/release_transport.rs:150-155 | strict byte order puts an ancestor before its descendants, whatever names lie between |
| `Inventory.ScannedIsGood` | crates/vllm-oxide-test/src/release_transport.rs:147-177 | checking each path against earlier ones only is equivalent to the symmetric no-conflict condition |
| `Inventory.ParseInventory` | crates/vllm-oxide-test/src/release_transport.rs:147-189 | the scan accepts exactly the good inventories; the 64-bit running total cannot overflow |
| `Inventory.ScannedPathsNeverConflict` | crates/vllm-oxide-test/src/release_transport.rs:147-177 | the scan compares neighbours and earlier names only; still no two paths it lets through are equal and none lies inside another |
| `Extraction.ExtractWritten` | crates/vllm-oxide-test/src/release_transport.rs:379-423 | every written archive is accepted and yields exactly the written payloads |
| `Extraction.OnlyWrittenExtracts` | crates/vllm-oxide-test/src/release_transport.rs:379-423 | every accepted stream is the writing of what came out, followed by an admissible zero tail |
| `Extraction.InventoryExtractable` | crates/vllm-oxide-test/src/release_transport.rs:147-177 | an accepted inventory meets the limits of the header printer |
| `Extraction.ChunkReader.ReadPayload` | crates/vllm-oxide-test/src/release_transport.rs:391-401 | the bounded copy loop returns the next bytes of the stream, however its reads are split |
| `Extraction.InstallTransport` | crates/vllm-oxide-test/src/release_transport.rs:379-423 | the extraction loop and the tail check compute the whole-stream function, for every splitting into reads |
| `TrackingReader.UstarTrackingReader.SetLastEntryEnd` | crates/vllm-oxide-test/src/download.rs:48-57 | an end behind the position is refused; otherwise capturing restarts there |
| `TrackingReader.UstarTrackingReader.Read` | crates/vllm-oxide-test/src/download.rs:91-116 | after any reads and end declarations the captured bytes are the clipped suffix behind the last end, with overflow flagged exactly when it was clipped |
| `TrackingReader.UstarTrackingReader.ValidateEndMarkers` | crates/vllm-oxide-test/src/download.rs:59-72 | at the end of the stream, accepts exactly when the suffix is an admissible tail |
| `TrackingReader.TailChecksAgree` | crates/vllm-oxide-test/src/release_transport.rs:406-418 | this clipped check and the schema 5 tail check accept the same suffixes |
| `TrackingReader.PaddedSizesAgree` | crates/vllm-oxide-test/src/download.rs:432-435 | rounding up and explicit padding give the same block boundary |
| `CaptureValidators.ValidateArtifact` | crates/vllm-oxide/src/golden_capture.rs:560-694 | the self-check loop decides the specified acceptance |
| `CaptureValidators.ValidateBindings` | crates/vllm-oxide-test/src/capture.rs:363-378 | accepts exactly the bindings that list the finished outputs in order without repetition |
| `CaptureValidators.ReadAndValidateCapture` | crates/vllm-oxide-test/src/capture.rs:209-356 | the consumer loop computes the specified result |
| `CaptureEquivalence.ProducerSound` | crates/vllm-oxide/src/golden_capture.rs:560-694 | whatever the self-check accepts is the canonical artifact of some groups of rows |
| `CaptureEquivalence.ProducerComplete` | crates/vllm-oxide/src/golden_capture.rs:560-694 | every canonical artifact passes the self-check |
| `CaptureEquivalence.SelfCheckExact` | crates/vllm-oxide/src/golden_capture.rs:380-466 | an emitted artifact passes exactly for the outputs its rows produced, and only if a noted width was used |
| `CaptureEquivalence.RunLockstep` | crates/vllm-oxide-test/src/capture.rs:209-356 | on every line sequence the consumer scan succeeds exactly when the producer scan does and its tokens are prefixes of the outputs |
| `CaptureEquivalence.ConsumerIffProducer` | crates/vllm-oxide-test/src/capture.rs:209-378 | the consumer accepts exactly what the self-check would accept for bindings taken from the outputs |
| `CaptureEquivalence.ConsumerValue` | crates/vllm-oxide-test/src/capture.rs:331-356 | an accepted reading returns all row logits in order, the shape and the tokens |
| `CaptureEquivalence.ValidatorsAgree` | crates/vllm-oxide/src/golden_capture.rs:560-694 | for any bound identities, outputs and lines: the self-check accepts if and only if the consumer does and the outputs carry the bound identities |
| `CaptureEquivalence.ValidatorsDisagreeOnForeignOutputs` | crates/vllm-oxide-test/src/capture.rs:209-378 | without that condition they disagree, because the consumer never sees the session bindings |
| `CaptureSessions.CaptureSession.BindRequests` | crates/vllm-oxide/src/golden_capture.rs:232-260 | binds once, and only distinct identities |
| `CaptureSessions.CaptureSession.RecordHostRows` | crates/vllm-oxide/src/golden_capture.rs:262-328 | a batch is recorded exactly when every row fits; otherwise its prefix is, and the first misfit decides: a good row of an unknown request leaves the session unfailed, any other marks it failed |
| `CaptureSessions.CaptureSession.EmitSpools` | crates/vllm-oxide/src/golden_capture.rs:416-445 | rows leave request by request, numbered consecutively |
| `CaptureSessions.CaptureSession.Finish` | crates/vllm-oxide/src/golden_capture.rs:380-466 | publishes exactly when the session did not fail and the outputs match, and then the consumer reads back all logits and tokens, per request in arrival order |
| `CaptureSessions.RoundTrip` | crates/vllm-oxide-test/src/capture.rs:209-356 | the consumer inverts the emission |
| `CaptureRefusals.FailedExactly` | crates/vllm-oxide/src/golden_capture.rs:262-328 | over every run of batches the session is failed exactly if some batch met a fault |
| `CaptureRefusals.WidthExactly` | crates/vllm-oxide/src/golden_capture.rs:280-300 | in an unfailed session a width was noted exactly if a row was recorded or a good row of an unknown request was seen |
| `CaptureRefusals.RunUnique` | crates/vllm-oxide/src/golden_capture.rs:262-328 | the offered batches determine the whole run of the session |
| `CaptureRefusals.StrayIsHarmless` | crates/vllm-oxide/src/golden_capture.rs:291-300 | once a width is noted, a batch that begins with such a row changes nothing |
| `CaptureRefusals.Capture` | crates/vllm-oxide/src/golden_capture.rs:232-466 | from binding to publication: published if and only if no batch met a fault, the outputs carry what was recorded, and an unknown row was refused only in a session that recorded something |
| `CaptureRefusals.RefusedYetPublished` | crates/vllm-oxide/src/golden_capture.rs:291-300 | a session that refuses a batch and still publishes |
| `OutputOrder.OrderRequestOutputs` | crates/vllm-oxide/src/llm.rs:605-642 | succeeds exactly when the identities are distinct and the completions a permutation of them; returns them in request order |
| `OutputOrder.OrderUnique` | crates/vllm-oxide/src/llm.rs:605-642 | the ordered outputs do not depend on the completion order |
| `OutputOrder.OrderedOutputsValidateAlike` | crates/vllm-oxide/src/llm.rs:501-547 | outputs ordered this way meet the condition under which both capture validators agree on every line sequence |
| `Tensors.AtBuild5` | crates/vllm-oxide/src/attention/math.rs:51-61 | the flat position of an element decodes to its indices (rank five; ranks three and four alike) |
| `AttentionOps.ExpandAt` | crates/vllm-oxide/src/attention/math.rs:51-61 | after broadcast, reshape and transpose, query head h reads key/value head h / (heads / kv_heads) |
| `AttentionOps.TileScoresAt` | crates/vllm-oxide/src/attention/math.rs:73-85 | zero rows added for the score product do not reach the cropped scores |
| `AttentionOps.AssembleAt` | crates/vllm-oxide/src/attention/math.rs:100-105 | the final reshape and transpose put every element back at its batch, query and head |
| `AttentionMask.KernelAddress` | crates/vllm-oxide/kernels/precision/attention.cu:14-30 | the flat row index decodes to the batch member and the absolute query |
| `AttentionMask.SoftmaxAt` | crates/vllm-oxide/src/attention/math_ops.rs:144-182 | row-locality: an element depends on the member, the absolute query and its own row of scores |
| `AttentionMask.PathsAgreeExactly` | crates/vllm-oxide/src/attention/math_ops.rs:176-181 | the fused and the separate softmax agree on a query if and only if it is padding or some key is visible to it |
| `AttentionMask.PathsAgree` | crates/vllm-oxide/src/attention/metadata.rs:266-273 | with no member having more queries than keys they always agree |
| `AttentionMask.SharesSumToOne` | crates/vllm-oxide/kernels/precision/attention.cu:32-70 | the probabilities of a row with a visible key sum to one |
| `Attention.DotIsScore` | crates/vllm-oxide/src/attention/math.rs:69-71 | scaling both operands by the root gives the scaled inner product |
| `Attention.Tile` | crates/vllm-oxide/src/attention/math.rs:73-99 | one tile holds the untiled attention of its queries |
| `Attention.Dense` | crates/vllm-oxide/src/attention/math.rs:40-106 | for every chunk size the result is the untiled definition; it fails exactly when the mask extents do |
| `Attention.OutputUnique` | crates/vllm-oxide/src/attention/math.rs:40-106 | two outputs holding the same attention are equal tensors, so tiled equals one-shot |
| `AttentionSplit.HeadAttended` | crates/vllm-oxide/src/attention/math.rs:128-142 | attention of one head with its key/value head is that head of the whole |
| `AttentionSplit.PackedMember` | crates/vllm-oxide/src/attention/math.rs:108-144 | neither the chunk size nor splitting by head shows in the result |
| `AttentionLayout.PaddedShare` | crates/vllm-oxide/kernels/precision/attention.cu:32-70 | hidden columns in front take no share and change none |
| `AttentionLayout.LayoutsAgree` | crates/vllm-oxide/src/attention/math.rs:146-186 | for real queries the padded rectangular layout computes what the packed layout computes |
| `AttentionPaged.GatherAt` | crates/vllm-oxide/kernels/precision/attention.cu:106-122 | the gather kernel puts zeros in front of a member and its paged keys behind them |
| `AttentionPaged.GatherPads` | crates/vllm-oxide/src/attention/math_ops.rs:250-290 | the gathered rectangle holds every member, as gathered alone, behind its padding |
| `AttentionPaged.PadQueries` | crates/vllm-oxide/src/attention/metadata.rs:171-188 | queries of every member behind zero rows, member after member |
| `AttentionPaged.PackedAttention` | crates/vllm-oxide/src/attention/math.rs:213-230 | member by member, with any tile sizes and head splitting: the attention of every member over its own pages, in packed order |
| `AttentionPaged.RectangularAttention` | crates/vllm-oxide/src/attention/math.rs:201-212 | the padded rectangle with its real rows picked out: the same output |
| `AttentionPaged.PagedAttention` | crates/vllm-oxide/src/attention/math.rs:187-231 | the layout does not show in the result |
| `AttentionPaged.BatchOutputUnique` | crates/vllm-oxide/src/attention/math.rs:187-231 | the specified output is one tensor, so both layouts return equal tensors |
| `ReleaseManifest.CheckExpected` | crates/vllm-oxide-test/src/manifest.rs:148-215 | accepts exactly when every expectation is canonical and identities and portable names are unique; fills the tables by prompt |
| `ReleaseManifest.CheckPairs` | crates/vllm-oxide-test/src/manifest.rs:216-224 | accepts exactly when every prompt has both roles and one family |
| `ReleaseManifest.CheckCalibrated` | crates/vllm-oxide-test/src/manifest.rs:238-252 | accepts exactly distinct generated baselines |
| `ReleaseManifest.FixtureByTable` | crates/vllm-oxide-test/src/manifest.rs:283-298 | the canonical identity of a matched fixture always finds its expectation |
| `ReleaseManifest.ValidateManifestContract` | crates/vllm-oxide-test/src/manifest.rs:139-307 | accepts exactly the manifests that meet the fixture contract |
| `ReleaseLifecycle.LifecycleTracker.DiscoverExpected` | crates/vllm-oxide-test/src/lifecycle.rs:55-66 | discovered and family-failed sets, and when there is nothing to report |
| `ReleaseLifecycle.LifecycleTracker.DiscoverPrompts` | crates/vllm-oxide-test/src/lifecycle.rs:67-74 | exactly the unplanned corpus fixtures become unexpected, in any iteration order |
| `ReleaseLifecycle.LifecycleTracker.ScanDirectory` | crates/vllm-oxide-test/src/lifecycle.rs:76-113 | strays are recorded, and an unreadable directory or entry fails everything |
| `ReleaseLifecycle.LifecycleTracker.ReadFixtures` | crates/vllm-oxide-test/src/lifecycle.rs:115-178 | generated and failed sets and the reference cases; a read error is reported but marks nothing |
| `ReleaseLifecycle.LifecycleTracker.Calibrate` | crates/vllm-oxide-test/src/lifecycle.rs:180-198 | valid evidence counts as compared, invalid evidence as failed, unmatched evidence as unexpected |
| `ReleaseLifecycle.LifecycleTracker.CountTotals` | crates/vllm-oxide-test/src/lifecycle.rs:302-320 | the totals are the cardinalities of the sets |
| `ReleaseGate.Preflight` | crates/vllm-oxide-test/src/lifecycle.rs:33-205 | the tracker, the cases and when the error list is empty |
| `ReleaseGate.RunPreparedComparisons` | crates/vllm-oxide-test/src/driver.rs:56-107 | the tracker and the report after all cases |
| `ReleaseVerdict.CountsDecide` | crates/vllm-oxide-test/src/report.rs:26-35 | for stages inside the expected set the counts pass exactly when the sets are full and the bad ones empty |
| `ReleaseVerdict.IdIsNoName` | crates/vllm-oxide-test/src/lifecycle.rs:99-101 | a stray file name is never an expected identity |
| `ReleaseVerdict.PreparedExact` | crates/vllm-oxide-test/src/lifecycle.rs:33-205 | the preflight stages are full exactly when every fixture has its prompt, its file is the described one, and nothing is extra |
| `ReleaseVerdict.SettledExact` | crates/vllm-oxide-test/src/driver.rs:56-107 | the comparison stage is full exactly when every baseline is calibrated and every reference was compared and passed |
| `ReleaseVerdict.AcceptedVerdict` | crates/vllm-oxide-test/src/report.rs:26-67 | for an accepted manifest the report passes if and only if the run is releasable; then every stage is full and the failure list is empty |
| `ReleaseVerdict.RunComparison` | crates/vllm-oxide-test/src/driver.rs:43-107 | the same of the whole run |
| `ReleaseDuplicates.RepeatHidesFailure` | crates/vllm-oxide-test/src/lifecycle.rs:124-132 | in a passing run with a repeated entry, losing the file of the repeat keeps the verdict and adds a failure |
| `ReleaseDuplicates.UniquenessIsExact` | crates/vllm-oxide-test/src/manifest.rs:226-237 | for every manifest that meets the rest of the contract and has a passing run: all its passing reports have an empty failure list if and only if the generated fixtures are unique |
| `ReleaseWitness.PassableExactly` | crates/vllm-oxide-test/src/driver.rs:43-107 | an accepted manifest has a passing run if and only if every expectation is generated in the right shape and every baseline is calibrated |
| `ReleaseWitness.ExamplePasses` | crates/vllm-oxide-test/src/driver.rs:43-107 | a manifest that is accepted, passes, and passes only with an empty failure list |
| `ReleaseWitness.RepeatPasses` | crates/vllm-oxide-test/src/lifecycle.rs:124-132 | repeating a fixture of any passing manifest yields one that passes with a recorded failure |
| `Telemetry.TakeEmissions` | crates/vllm-oxide/src/benchmark_telemetry.rs:111-128 | the unchecked look-up of the previous sample never misses and never underflows |
| `Telemetry.TakeSteps` | crates/vllm-oxide/src/benchmark_telemetry.rs:69-129 | the nested loops compute the specified account, overflow checks included |
| `Telemetry.TakenInv` | crates/vllm-oxide/src/benchmark_telemetry.rs:69-129 | every accepted step list keeps the books: tables, telescoping, conservation and disjoint durations |
| `Telemetry.OnlyTokensOverflow` | crates/vllm-oxide/src/benchmark_telemetry.rs:95-110 | the duration overflow checks never fire: only the token count can |
| `TelemetryAudit.RunAudit` | crates/vllm-oxide-test/src/benchmark.rs:277-352 | the consumer's own loop, with text phases and a checked look-up of the previous sample |
| `TelemetryAudit.AuditReproduces` | crates/vllm-oxide-test/src/benchmark.rs:289-352 | for every step list that loop ends with exactly the producer's figures or both refuse; the missing-sample branch is dead and the subtraction never underflows |
| `TelemetryExchange.FromSamples` | crates/vllm-oxide/src/benchmark_telemetry.rs:46-165 | succeeds exactly on reportable inputs |
| `TelemetryExchange.ProducedMeans` | crates/vllm-oxide/src/benchmark_telemetry.rs:46-165 | decode tokens equal emissions minus requests, latencies are positive, and first time plus latencies equals the last time, per request |
| `TelemetryExchange.ValidatePrivateTelemetry` | crates/vllm-oxide-test/src/benchmark.rs:276-391 | the consumer, with its own pass over the raw steps, decides the specified acceptance |
| `TelemetryExchange.ConsumerAcceptsProduced` | crates/vllm-oxide-test/src/benchmark.rs:276-391 | the consumer accepts produced telemetry if and only if every request emitted exactly 64 tokens |
| `TelemetryExchange.AcceptedWasProducible` | crates/vllm-oxide-test/src/benchmark.rs:355-391 | whatever the consumer accepts is what the producer writes for those steps, up to the tolerance on rates |
| `SharedPrefix.CompareTokensLoop` | crates/vllm-oxide-test/src/l1.rs:94-171 | the loop result from the length of the agreement and the verdict on the first difference |
| `SharedPrefix.CompareL1` | crates/vllm-oxide-test/src/l1.rs:50-72 | the same with candidate gaps, missing rows and tokens outside the vocabulary included |
| `SharedPrefix.CompareL2` | crates/vllm-oxide-test/src/l2.rs:33-121 | counts and largest difference over exactly the compared rows; a non-finite value counts and makes the maximum infinite |
| `SharedPrefixLaws.L1IgnoresLaterTokens` | crates/vllm-oxide-test/src/l1.rs:50-171 | two-run law: nothing after the first divergent token reaches the L1 verdict |
| `SharedPrefixLaws.L2IgnoresLaterRows` | crates/vllm-oxide-test/src/l2.rs:33-121 | two-run law for L2 |
| `SharedPrefixLaws.LayersAgree` | crates/vllm-oxide-test/src/l2.rs:69-107 | L1 and L2 compare the same positions and report the same divergence within the common length; when L1 fails |
| `SharedPrefixLaws.L1Monotone` | crates/vllm-oxide-test/src/l1.rs:66-70 | raising the gap tolerance keeps a pass and moves no divergence |
| `SharedPrefixLaws.L2Monotone` | crates/vllm-oxide-test/src/l2.rs:96-100 | raising the tolerance keeps a pass and never raises the count |
| `SharedPrefixLaws.L2PassesByLargest` | crates/vllm-oxide-test/src/l2.rs:111-120 | L2 passes exactly when the largest difference it reports is within the tolerance |
| `Calibration.ValidateObservation` | crates/vllm-oxide-test/src/approval.rs:272-367 | accepts exactly the observations with the four required cases, each good, a recomputed aggregate and the covering proposal |
| `Calibration.CoveringIsLeast` | crates/vllm-oxide-test/src/approval.rs:383-389 | the first covering rung of an ascending ladder is the least |
| `Calibration.ProposalIsLeast` | crates/vllm-oxide-test/src/approval.rs:362-367 | an accepted proposal is the least rung covering every gap and the least covering every error |
| `Calibration.CauchyStep` | crates/vllm-oxide-test/src/approval.rs:330-337 | one step of the weighted Cauchy–Schwarz inequality |
| `Calibration.AggregateOrdered` | crates/vllm-oxide-test/src/approval.rs:282-361 | for any number of good cases: mean² ≤ mean square ≤ maximum², and mean ≤ root mean square ≤ maximum |
| `Calibration.PercentilesExact` | crates/vllm-oxide-test/src/approval.rs:338-361 | of the aggregate percentiles an accepted observation needs exactly their order below the largest error |
| `Calibration.NegativePercentileAccepted` | crates/vllm-oxide-test/src/approval.rs:343-361 | for every admissible set of cases an aggregate with an arbitrarily negative median error is accepted |
| `Calibration.AdmissibleCasesExist` | crates/vllm-oxide-test/src/approval.rs:272-281 | admissible sets of the four required cases exist |
| `Percentile.Sort` | crates/vllm-oxide-test/src/benchmark.rs:70-71 | a sorted permutation of the samples |
| `Percentile.SortedUnique` | crates/vllm-oxide-test/src/benchmark.rs:70-71 | there is only one sorted arrangement |
| `Percentile.SummarizeDurations` | crates/vllm-oxide-test/src/benchmark.rs:66-80 | mean and percentiles of the sorted samples |
| `Percentile.PercentileMonotone` | crates/vllm-oxide-test/src/benchmark.rs:87-97 | the percentile is monotone in the quantile |
| `Percentile.PercentileBounded` | crates/vllm-oxide-test/src/benchmark.rs:87-97 | and lies between minimum and maximum |
| `Percentile.HalfIsMedian` | crates/vllm-oxide-test/src/benchmark.rs:432-443 | at one half it equals the median, for every sample count |
| `Percentile.Median` | crates/vllm-oxide-test/src/benchmark.rs:432-443 | the median of the sorted values; refuses empty and non-finite input |
| `Percentile.SummaryIndependent` | crates/vllm-oxide-test/src/benchmark.rs:66-97 | the figures do not depend on the sample order, and p50 ≤ p95 |

## Left out

- IEEE rounding of logits, scores, rates, percentiles and attention: the properties are over exact reals.
- Sampler.RowSampler.SampleRowHost: rows with a NaN logit, and infinite logits at an infinite temperature under an active mask, because the selection and the sort then compare NaN and their result is unspecified.
- Sampler.RowSampler.SampleRowOrdinary: the same rows.
- `requires_wide_sampling`: which sampling path runs is a parameter; both are covered.
- Distribution and quality of the Gumbel noise: the noise sequence is an input.
- The CUDA sampler and device transfers: only the host path is modelled.
- gzip, SHA-256, JSON and safetensors decoding: the model starts from decompressed bytes, parsed lines and loaded values; the digest is an unknown function.
- File system effects of installation and publication (staging, rename, permissions, symbolic links), Git and network access.
- Fixed release identities in manifests (schema, commit, version, policy and runtime constants): single comparisons with constants.
- Extraction.InstallTransport: does not write files, and stops before the check for trailing compressed bytes, which is about the gzip stream and not about its contents.
- MonitorProtocol actions: a wait or acknowledgement may time out at any moment, which allows more runs than real deadlines do.
- Monitor journal, saved documents and environment probes: output only.
- `EngineCore` and the scheduler: the cache is proved for every order of calls, so no scheduling policy is modelled; the token budget, admission and preemption rules are not.
- The mode of the block pool without prefix cache, which only tests select, and 64-bit overflow of reference counts.
- CacheRuns.NextKeepsGood: a step can be committed only if its tokens exist and have blocks, which the scheduler sees to; model execution is the write of the scheduled positions just before.
- AttentionPaged.PagedAttention: a member without queries; `prefill_attn`, whose keys and values are packed like the queries, is not modelled beside it.
- Attention dtype casts, launch capacity limits and device errors.
- ReleaseGate comparison results: a function of the fixture identity, since every case is compared at most once for an accepted manifest.
- L3 comparison and report printing.
- Telemetry header, device binding and sampled-token lists of the artifact around the telemetry: equality checks on parsed values.
- Telemetry counters of tokens and completion steps: their unchecked increments are unbounded integers here.
- Approval identity, holdout and error-class checks of a calibration observation.
- Percentile over 64-bit samples: the samples are taken as reals before sorting.
