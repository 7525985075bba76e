# Verified model of the embedding server's planner and protocols

The server turns batches of texts into dense and sparse embeddings with an ONNX model. Its value lies in
a planner (pack texts into `session.run()` chunks under a memory budget, scatter the rows back) and in
concurrent protocols (a worker pool, a bootstrap sequence, TensorRT warmup). This project models both and
proves what they promise, over every input and every interleaving.

| files | what they model |
|---|---|
| `Numbers`, `Outcomes`, `Sorting` | machine limits, option and result types, unstable in-place sorting |
| `CostModels`, `BinPack`, `PackingLaws` | the chunk cost, the greedy packer, its optimality over all divisions of the texts |
| `Tokenize`, `SparsePool`, `Pipelines` | padded chunk buffers, sparse max-pooling, the three embedding pipelines |
| `JitGuard`, `TrtRetry` | the in-band admission guard, the single out-of-memory retry |
| `LeastSquares`, `Fit`, `ProbeSweep` | the probe's fit and the sweep that feeds it |
| `Budget`, `PoolMemory`, `CostOverrides`, `Median` | the workspace budget, the end-to-end memory bound under every cost model, configured ones included, the footprint median |
| `CircuitBreaker`, `WorkerLoop`, `WorkerThread` | outcomes and failure counter, one worker as an automaton of atomic actions, the worker function itself |
| `WorkerPool`, `PoolCounters`, `PoolInit`, `PoolSafety`, `PoolRequests`, `PoolPaths`, `PoolCeiling`, `Devices` | the pool as a step system and what holds over all its runs |
| `Startup` | readiness flag, cost-model swap, probe status and permits as a step system |
| `WarmupShapes`, `TrtWarmup`, `AdaptiveWarmup` | sharding, prewarm against a session profile, the background compile loop |
| `SmTags`, `TrtCacheGc` | compute-capability tags, plan enumeration, the stale-plan sweep |

## How things are modelled

- `f64` is `real`; every float-to-integer cast is written out (negative to 0, fractions dropped, saturation).
  Saturating and wrapping integer operations are written out where the source has them.
- Imperative code is imperative here: `WorkerThread.RunWorker`, `BinPacking.BinPack`, the pipelines, the fit,
  prewarm, the adaptive loop and the sweep are methods with loops. Where a loop's result is described by a
  function (`AdaptiveWarmup.Turns`, `WorkerLoop.Path`), the method is proved equal to it or a path of it, and
  the theorems are about the function.
- The pool and the bootstrap are step systems. A run is a list of steps, each an atomic action of one worker,
  of the init task, of the bootstrap task, or of a client. A worker's actions are those of the phase automaton
  `WorkerLoop.Next`; `WorkerThread.RunWorker` shows that the worker function only ever follows it, and
  `PoolPaths.ProjectionIsPath` that so does each worker inside every pool run.
- A raise of the warmed-sequence ceiling carries the prewarm behind it (its shapes, runs and statistics, as
  `TrtWarmup.TrtPrewarm` produces them), and the pool keeps the range of every shape those runs warmed.
- The inference engine is a function with one assumption, `Pipelines.RowLocal`: a successful run on the
  padded grid of some texts has a row per text, and a row's values on real positions depend only on that text. A TensorRT session is a per-dimension
  range profile: a successful run is fast exactly when the profile covers the shape, and otherwise the profile
  grows to cover it.
- The environment (timing, model loads, replies of the inference runtime, arrival of requests, which files
  refuse deletion, the order a directory is listed in) is a parameter or a free choice of step.

## Where the code and its documentation differ

The model follows the code; each difference is a lemma.

- A worker that exits after a fatal engine build keeps its share of `loaded_workers`
  (src/embedder/worker/run.rs:227-231): `PoolSafety.FatalExitsStayCounted`.
- `loaded_workers` can wrap below zero while init has a signal to count: `PoolSafety.UnderflowIff` says exactly
  when, `PoolSafety.EarlyTimeoutWraps` gives a run.
- One worker ends the probe path with two permits, and the override and cache-hit paths never add the reserved
  permit (src/state.rs:114-118 says otherwise): `Startup.FullConcurrencyIff`, `Startup.ReservedPermitNeverReturned`.
- The hourly compile budget is a fixed window, while src/embedder/adaptive_warmup.rs:68 promises a cap per rolling
  hour. `AdaptiveWarmup.CapsEveryHourIff` says exactly which configurations meet it; the defaults do not
  (`DefaultsExceedBudget`). Any hour holds at most twice the budget, `AdaptiveWarmup.AnyHourAtMostTwiceBudget`.
- The "halved" retry budget is floored at 1 MiB and can exceed a smaller base: `TrtRetry.RetryBudgetWithinBase`.
- Probe and adaptive-warmup requests end with a successful outcome whatever happened, which resets the failure
  counter: `WorkerLoop.CounterOverLife` with `WorkerLoop.Verdicts`.
- `median_usize` returns the upper of the two middle values: `Median.MedianUsize`.
- Fitted coefficients may exceed the conservative ones the physics floor is computed from, and then a budget that
  passes the floor need not hold one longest text: `PoolMemory.FittedCoefficientsCanOutgrowFloor` gives the host and
  the sweep, `PoolMemory.PoolFitsIff` the exact condition.
- The floor check looks at the computed budget also when a configured cost model with a budget of its own is used
  (src/bootstrap/readiness.rs:139-183), so it does not keep such a pool within memory, conservative coefficients or not:
  `CostOverrides.OverrideOutgrowsHost`; the exact conditions are `ServiceFitsIff`,
  `DefaultOverrideFitsIff`, `TokenBudgetFitsIff` and `ExplicitMemoryFitsIff`.
- A sidecar that resists deletion when its plan is deleted is never collected later: `TrtCacheGc.OrphanedSidecarStays`.

## Model

| member | source | states |
|---|---|---|
| CostModels.TermsTruncate | src/binpack.rs:104-105 | for every pair of coefficients each term is its real product with the fraction dropped, 0 when negative, the limit above it |
| CostModels.CostWithinTwoBytes | src/binpack.rs:102-107 | the estimate is at most the real polynomial of a and b, and less than two bytes below it unless the width is exhausted |
| CostModels.ChunkCostMonotone | src/binpack.rs:102-107 | cost never falls when count, length or a coefficient grows, for every real coefficient, through casts and saturation |
| CostModels.FitsMonotone | src/binpack.rs:111-113 | a shape that fits keeps fitting when it shrinks |
| CostModels.ConservativeCost | src/binpack.rs:102-107 | with the conservative coefficients the float estimate is the exact integer polynomial, until it saturates |
| BinPacking.BinPack | src/binpack.rs:137-191 | every text in exactly one chunk, chunks ascending by length and admissible, and no division of the texts into admissible chunks, contiguous or not, has fewer |
| BinPacking.ScanAtMostDivision | src/binpack.rs:151-188 | the greedy scan of the sorted lengths opens no more chunks than any division has classes |
| BinPacking.AtMostDivision | src/binpack.rs:137-191 | the packing is no larger than a given division |
| BinPacking.FewestChunks | src/binpack.rs:116-191 | every packing the greedy could return is minimal among all divisions |
| BinPacking.PackingScan | src/binpack.rs:151-188 | a packing's chunk count is the greedy scan's, whatever the tie order |
| PackingLaws.PackingIsDivision | src/binpack.rs:127-132 | a packing is itself a division of the texts, so the bound is attained |
| PackingLaws.ChunkCountMonotone | src/binpack.rs:137-191 | chunk count never rises with the budget and never falls when a coefficient grows |
| PackingLaws.TiesDoNotMatter | src/binpack.rs:145 | how the unstable sort breaks ties does not change the chunk count |
| PackingLaws.LaterIsLonger | src/binpack.rs:142-145 | texts of a later chunk are at least as long as those of an earlier one |
| PackingLaws.OverBudgetSuffix | src/binpack.rs:121-125 | an over-budget chunk is a single text, and every later chunk is over budget too |
| PackingLaws.AllFitIffSinglesFit | src/binpack.rs:156-174 | every chunk is within budget exactly when every text alone is |
| JitGuard.RefusedIff | src/embedder/jit_guard.rs:149-159 | a shape is refused exactly when it is as long as the threshold and longer than the ceiling, whatever its batch; the refusal carries shape and limits |
| JitGuard.GuardPassIff | src/embedder/jit_guard.rs:173-186 | the scan passes exactly when each chunk's shape is admitted |
| JitGuard.FirstRefused | src/embedder/jit_guard.rs:162-167 | a refusal reports the first refused chunk: its batch and longest text, and the two limits it violates; those before it pass |
| JitGuard.GuardJudgesLongest | src/embedder/jit_guard.rs:149-186 | on packed chunks the guard passes exactly when the longest text alone is admitted |
| JitGuard.VerdictIgnoresCostModel | src/embedder/jit_guard.rs:173-186 | the verdict is the same for any two cost models, hence for the retry |
| JitGuard.VerdictOnTexts | src/embedder/jit_guard.rs:173-186 | the guard refuses exactly when some text alone would be refused |
| JitGuard.AdmissionMonotone | src/embedder/jit_guard.rs:149-159 | raising the ceiling never turns an admitted shape away |
| TrtRetry.AtMostTwoCalls | src/embedder/worker/trt_retry.rs:138-176 | one call, or two exactly after a JIT out-of-memory; the last call's result stands, coefficients unchanged |
| TrtRetry.RetryHalves | src/embedder/worker/trt_retry.rs:150-155 | half the base budget rounded down from 2 MiB up, 1 MiB below; every cost unchanged |
| TrtRetry.RetryBudgetWithinBase | src/embedder/worker/trt_retry.rs:150-155 | the retry budget is within the base budget exactly from 1 MiB up |
| TrtRetry.RetryPacksFiner | src/embedder/worker/trt_retry.rs:150-164 | from 1 MiB up the retry has at least as many chunks, all admissible under the base budget |
| TrtRetry.TinyBudgetGrows | src/embedder/worker/trt_retry.rs:151-153 | below 1 MiB, with the conservative coefficients of every TensorRT worker, the retry admits a chunk the base budget forbids |
| Tokenize.BuildChunkArrays | src/embedder/tokenize.rs:64-93 | an error exactly when some text is longer than the padding; otherwise batch and width as asked for and, over that width, every row its text's tokens and mask, then pad id 1 and mask 0 |
| Tokenize.BufferSizes | src/embedder/tokenize.rs:70-90 | both flat buffers hold exactly batch times padded length cells |
| Tokenize.ArrayCell | src/embedder/tokenize.rs:79-87 | over the result's own stride, cell (r, c) is token c of text r, or the pad id and mask 0 beyond its end |
| Tokenize.GridUnique | src/embedder/tokenize.rs:79-90 | that description leaves one pair of buffers |
| SparsePool.SparseMaxpool | src/embedder/math.rs:46-69 | strictly increasing indices, exactly the counted tokens with a positive score, each with its greatest score |
| SparsePool.PooledIdsIff | src/embedder/math.rs:49-63 | an id comes out exactly when it is 4 or more and occurs unmasked with a positive score; no weight is zero |
| SparsePool.PooledUnique | src/embedder/math.rs:46-69 | that description leaves one result |
| SparsePool.PooledIgnoresOrderAndPadding | src/embedder/math.rs:46-69 | permuting positions and appending masked padding change nothing |
| SparsePool.WeightIsTop | src/embedder/math.rs:57-62 | a token's weight is its greatest positive score, 0 if it has none |
| SparsePool.PooledConcat | src/embedder/math.rs:49-63 | pooling a concatenation is the pointwise maximum of the parts |
| Pipelines.DenseIsAlone | src/embedder/dense.rs:105-131 | the per-text dense reference is the normalised sentence row, or first hidden state, of an engine run on that text alone |
| Pipelines.SparseIsAlone | src/embedder/sparse.rs:114-133 | the per-text sparse reference pools the text's tokens scored by projecting the hidden state at each one's position in that run |
| Pipelines.SparseOfIsPooled | src/embedder/sparse.rs:117-133 | the per-text sparse reference is the pooling of that text's own rows |
| Pipelines.EmbedDense | src/embedder/dense.rs:41-148 | in input order exactly each text embedded alone, for every cost model; an error is the guard's verdict on a packing of these texts, some text alone deserving it, or the engine's own on a chunk of one |
| Pipelines.EmbedSparse | src/embedder/sparse.rs:38-156 | the same for sparse embeddings and their errors; every slot is filled, so unwrapping never fails |
| Pipelines.EmbedBoth | src/embedder/dual.rs:45-190 | the pairing of the dense and the sparse reference of each text, every slot filled, errors explained the same way |
| Pipelines.SumConcat | src/embedder/dense.rs:55 | the token positions reported are one summand per text |
| Pipelines.ScatterDense | src/embedder/dense.rs:122-131 | rows of one chunk land at their texts' original positions, other slots untouched |
| Pipelines.ScatterSparse | src/embedder/sparse.rs:114-134 | the same for pooled rows |
| Pipelines.ScatterBoth | src/embedder/dual.rs:136-169 | the same for pairs |
| LeastSquares.DeterminantNonNegative | src/probe/fit.rs:84-98 | the accumulated Gram determinant is never negative |
| LeastSquares.DeterminantZeroIff | src/probe/fit.rs:96-104 | it is zero exactly when all observations are proportional |
| LeastSquares.DeterminantAtLeast | src/probe/fit.rs:96-104 | it is at least the squared cross of the last observation with any other |
| LeastSquares.CramerSolves | src/probe/fit.rs:106-108 | Cramer's rule solves the normal equations |
| LeastSquares.NormalUnique | src/probe/fit.rs:96-108 | with a non-zero determinant they have one solution |
| LeastSquares.SseShift | src/probe/fit.rs:106-112 | squared error of any plane against another: the energy of the move less twice its gaps |
| LeastSquares.NormalIsLeast | src/probe/fit.rs:106-112 | a solution of the normal equations has the least squared error of all planes |
| Fit.FitCostModel | src/probe/fit.rs:53-168 | None on degenerate data, otherwise the clamped plane of least squared error on the measurements, None if its quadratic term falls |
| Fit.ColumnMaxima | src/probe/fit.rs:62-69 | the two scale factors are the column maxima |
| Fit.Accumulate | src/probe/fit.rs:78-94 | the loop's five sums are those of the scaled observations |
| Fit.UnscaledIsLeast | src/probe/fit.rs:106-112 | unscaling Cramer's solution of the scaled system gives the un-normalised least-squares plane |
| Fit.RawUnique | src/probe/fit.rs:96-112 | past the degeneracy tests one plane solves the un-normalised normal equations |
| Fit.NearSingularIff | src/probe/fit.rs:96-104 | the determinant test fires exactly when it is below a millionth of the square of either diagonal entry |
| Fit.SingularIff | src/probe/fit.rs:96-104 | the scaled Gram matrix is singular exactly when all measured runs have one sequence length |
| Fit.OneLengthIsDegenerate | src/probe/fit.rs:84-104 | runs at one sequence length are always rejected, however many batch sizes were measured |
| Fit.FarApart | src/probe/fit.rs:96-104 | few scaled observations two of which are far from proportional pass the determinant test |
| Fit.FitUnique | src/probe/fit.rs:53-168 | the result is a function of the measurements |
| Fit.PlaneRecovered | src/probe/fit.rs:53-168 | data exactly on a plane returns that plane, unchanged when in range |
| Fit.FitIsConservative | src/probe/fit.rs:143-167 | None exactly for a falling quadratic term, otherwise each coefficient the point of its range nearest the least-squares one; predicts at least the raw plane when no upper limit acts |
| ProbeSweep.AdmittedIff | src/probe/runner.rs:187-236 | a shape is run exactly when its conservative cost is within the ceiling and, with four times it, the resident size within seven eighths of the limit |
| ProbeSweep.Sweep | src/probe/runner.rs:180-269 | the loop measures exactly the shapes both guards admit and whose run succeeds, in list order |
| ProbeSweep.SweepUsableIff | src/probe/runner.rs:64-72 | whichever shapes of the sweep were measured and whatever was read, the fit gives up exactly when they all have one length |
| ProbeSweep.SweepRecovers | src/probe/fit.rs:53-168 | any two lengths of the sweep measured on an in-range whole plane have one fit, its coefficients |
| ProbeSweep.TwoRunsUsableIff | src/probe/fit.rs:96-104 | two single-text runs of lengths s < t are usable exactly when s² + t² <= 1000 s (t - s) |
| ProbeSweep.RunProbe | src/probe/runner.rs:95-325 | the fitted coefficients, or the conservative pair with no measurement, no growth, degenerate data or a falling quadratic term |
| ProbeSweep.ProbeFindsPlane | src/probe/runner.rs:95-325 | a probe that measured two lengths of the sweep on an in-range whole plane returns it |
| Budget.FloorIsExact | src/bootstrap/readiness.rs:139 | the truncated floor is the conservative cost of one longest text |
| Budget.FloorPassesIff | src/bootstrap/readiness.rs:139-153 | a share passes exactly when it holds one longest text at the conservative cost |
| Budget.SharesFitTotal | src/bootstrap/budget.rs:50-53 | n floored shares never exceed the total |
| Budget.ShareIsLargest | src/bootstrap/budget.rs:44-53 | the share is the largest whole number of bytes whose copies fit in the safe part of what models and headroom leave |
| Budget.PeakIsReported | src/bootstrap/budget.rs:54-67 | the reported peak is shares, models and headroom, saturated; the utilisation its percentage of what is available |
| Budget.BudgetIsSound | src/bootstrap/budget.rs:44-67 | a positive budget means nothing saturated: shares, models and headroom are within available memory and equal the reported peak |
| PoolMemory.EveryChunkFits | src/binpack.rs:137-191 | when one longest text fits, every chunk a worker can be running fits |
| PoolMemory.FitsIffShapesDo | src/binpack.rs:137-191 | for any cost models, whatever their coefficients and budgets: the pool always fits exactly when every shape the packer lets through does with all workers running it at once |
| PoolMemory.RunsRunnable | src/binpack.rs:156-174 | what a worker is running is a single text or a shape within its budget, inside the request limits |
| PoolMemory.EqualTextsRun | src/binpack.rs:156-174 | every such shape is a chunk some request is packed into |
| PoolMemory.SpentBudgetFitsIff | src/binpack.rs:111-113 | when some shape uses the budget up, the pool fits exactly when budget and longest text each fit once per worker |
| CostOverrides.Precedence | src/config.rs:668-680 | which model is in force: GPU, switch, token budget, coefficients, fit, in that order; an explicit memory size replaces only the 2 GiB |
| CostOverrides.ServiceFitsIff | src/bootstrap/readiness.rs:171-195 | whichever model is in force, configured or fitted, exactly when the pool is safe |
| CostOverrides.DefaultOverrideFitsIff | src/config.rs:927-933 | with the default configured budget, and requests allowed 32 texts of 2048 tokens, the pool is safe exactly when 2 GiB fit once per worker |
| CostOverrides.TokenBudgetFitsIff | src/config.rs:939-951 | with a token budget of k longest texts, k within the batch limit and no overflow, the pool is safe exactly when the bytes it translates to fit once per worker |
| CostOverrides.ExplicitMemoryFitsIff | src/config.rs:927-933 | with an explicit memory size and two workers or more the pool is safe exactly when the largest request uncut fits on every worker |
| CostOverrides.OverrideOutgrowsHost | src/bootstrap/readiness.rs:139-183 | an 8 GiB host that passes the floor check and is outgrown under the default configured model |
| PoolMemory.RetriesFitIff | src/embedder/worker/trt_retry.rs:150-164 | with workers on the base or the retry budget the pool is safe exactly when it is with the larger of base and 1 MiB |
| PoolMemory.RetryKeepsFit | src/embedder/worker/trt_retry.rs:150-155 | so a base budget of at least 1 MiB that is safe stays safe through retries |
| PoolMemory.TinyRetryOutgrows | src/embedder/worker/trt_retry.rs:151-153 | and a smaller one may not: a host its base budget fits and a retry outgrows |
| PoolMemory.PoolFitsIff | src/bootstrap/budget.rs:44-67 | with the computed budget and every pair of coefficients, all workers at any chunks of any requests, their models and the headroom always stay within available bytes exactly when one longest text per worker does |
| PoolMemory.PoolFitsInMemory | src/bootstrap/readiness.rs:139-153 | so with the computed budget (cached or probed coefficients) past the floor check every pair no larger than the conservative one is safe; not so with a configured model, see `OverrideOutgrowsHost` |
| Budget.FloorPassesOnRealHost | src/bootstrap/budget.rs:44-67 | the bound's hypotheses hold of an 8 GiB host with two 2 GiB workers |
| PoolMemory.EveryLoadFitsIff | src/binpack.rs:137-191 | all chunks of all requests stay within one worker's budget exactly when one longest text does |
| PoolMemory.FittedCoefficientsCanOutgrowFloor | src/bootstrap/readiness.rs:139-140 | a host whose computed budget passes the floor check and a sweep on it, guards included, whose one fit is (262144, 8); the pool can then exceed the host's memory |
| Median.MedianUsize | src/embedder/math.rs:75-81 | at most half the values lie below the result and more than half at or below it; 0 for none |
| Median.UpperMedianUnique | src/embedder/math.rs:71-81 | only one value has that property |
| Median.OutliersCannotMoveMedian | src/embedder/pool.rs:244-248 | with fewer than half the measurements disturbed the median still lies between two undisturbed ones |
| CircuitBreaker.ClassifiedIff | src/embedder/worker/guard.rs:138-160 | each outcome exactly for its verdicts: a fatal build beats a refusal, a refusal an error, an error trips at the threshold |
| CircuitBreaker.CounterIsTrailingErrors | src/embedder/worker/guard.rs:138-171 | the counter is the length of the longest error suffix of the erased history modulo the threshold, and below it |
| CircuitBreaker.BreaksExactlyAtThreshold | src/embedder/worker/guard.rs:138-176 | the breaker trips exactly when the erased history ends in whole threshold-long runs of errors |
| CircuitBreaker.FirstTrip | src/embedder/worker/guard.rs:150-155 | the first trip since a success comes with the threshold-th error in a row |
| CircuitBreaker.TrailingRun | src/embedder/worker/guard.rs:138-171 | the trailing errors are the longest suffix of errors |
| WorkerLoop.ReceivedAreSettled | src/embedder/worker/run.rs:137-236 | a worker settles every request it receives exactly once, in order, before anything else |
| WorkerLoop.ReplyLeads | src/embedder/worker/run.rs:209-235 | after a reply the worker is on its way out exactly for a client meeting a fatal build; a refusal leaves it as it was; another error counts or takes the models; everything else resets the count |
| WorkerLoop.EndsExplained | src/embedder/worker/run.rs:137-240 | over every life each way of ending has exactly its own last two actions, a fatal reply being followed by nothing but the exit |
| WorkerLoop.CounterOverLife | src/embedder/worker/run.rs:80-226 | at every point of a worker's life the counter is that of its history with refusals, skips and reload errors erased |
| WorkerLoop.BreakerOverLife | src/embedder/worker/run.rs:222-235 | the models are given up after a reply exactly when it completes a run of threshold errors |
| WorkerThread.StartupWorker | src/embedder/worker/startup.rs:57-396 | the exact actions: ready is signalled exactly when models load and strict mode does not refuse, after a prewarm of the whole shard on the new session is folded into the ceiling |
| WorkerThread.DrainEnginePropagation | src/embedder/worker/propagation.rs:78-108 | the shapes the messages name and this worker does not know are prewarmed on its session, once each, and exactly the gains raise the ceiling |
| WorkerThread.RaisedIff | src/embedder/worker/run.rs:97-101 | the ceiling is raised for exactly the prewarms of which some run succeeded |
| WorkerThread.ReloadModels | src/embedder/worker/run.rs:138-182 | a reload makes a fresh session and raises the counter, otherwise the request is answered with the error |
| WorkerThread.DispatchRequest | src/embedder/worker/dispatch.rs:65-237 | skips exactly the abandoned client requests, otherwise replies once; a fatal build, a refusal and a success each exactly for its verdict; notes exactly the shape a success announces; compiles what an adaptive request asks for |
| WorkerThread.ServeRequest | src/embedder/worker/run.rs:137-236 | one request from receipt to the next turn, or to the fatal exit |
| WorkerThread.Listen | src/embedder/worker/run.rs:83-114 | at the head of a turn, with models on TensorRT, every shape peers announced is noted |
| WorkerThread.RunWorker | src/embedder/worker/run.rs:41-241 | for every environment the actions are a path of the automaton, the offered requests are taken in order, every turn with models on TensorRT heard its announcements, no shape is compiled for a peer twice or after the worker announced it |
| WorkerThread.NoteOne | src/embedder/worker/propagation.rs:74-90 | remembering a shape keeps peers' shapes from being compiled again |
| PoolCounters.CountersExact | src/embedder/pool.rs:177-299 | in every run `loaded_workers` plus uncounted signals is the credited workers modulo its width, `live_workers` is the workers not exited |
| PoolCounters.ShareNext | src/embedder/worker/run.rs:116-236 | which atomic actions move a worker's share of the counter, and by how much |
| PoolCounters.ModelsComeAndGo | src/embedder/worker/run.rs:116-236 | models go only by a configured idle timeout, a tripped breaker or the worker's end, and come only by loading |
| PoolSafety.OneLoadsAtATime | src/embedder/pool.rs:250-285 | at most one worker is loading, and only while init waits for it |
| PoolSafety.InitNeverStuck | src/embedder/pool.rs:50-79 | the signal taken was sent by the awaited worker, and init is never left waiting on an exited one |
| PoolSafety.SuccessMeansAllReady | src/embedder/pool.rs:248-299 | init succeeds only after every worker's own success signal, in id order, each measurement that worker's |
| PoolSafety.LoadErrorEndsInit | src/embedder/pool.rs:50-79 | in every run a worker that failed to load ends init, which waits for no other |
| PoolSafety.LoadedIs | src/embedder/pool.rs:180-278 | the counter without wrap-around, and exactly the credited workers once init is done |
| PoolSafety.UnderflowIff | src/embedder/worker/run.rs:125-135 | a decrement wraps exactly when its worker alone is credited and a signal is uncounted, never after init |
| PoolSafety.EarlyTimeoutWraps | src/embedder/worker/run.rs:125-129 | a run in which the counter reads the largest usize, then zero again |
| PoolSafety.ZeroMeansUnloaded | src/embedder/worker/run.rs:125-182 | after init a zero counter means no live worker holds models outside the reload and leaving windows |
| PoolSafety.ZeroWhileReloaded | src/embedder/worker/run.rs:138-182 | a run in which a lone worker has its models back and the counter still reads zero |
| PoolSafety.ZeroWhileLeaving | src/embedder/worker/run.rs:116-136 | a run in which a lone worker is returning with its models and the counter reads zero |
| PoolSafety.LoadedAtRest | src/embedder/worker/run.rs:116-236 | with all workers at rest the counter is workers holding models plus fatal exits |
| PoolSafety.FatalExitsStayCounted | src/embedder/worker/run.rs:227-231 | a fatal exit is counted for ever |
| PoolSafety.LoadedWithNobodyAlive | src/embedder/worker/run.rs:227-231 | a run that ends with no worker alive and one counted as loaded |
| PoolSafety.LiveIs | src/embedder/worker/guard.rs:31-41 | `live_workers` never wraps and is zero exactly when all workers exited; workers never spawned still count |
| PoolRequests.LedgerHolds | src/embedder/worker/run.rs:116-236 | every submitted request is queued once, in one worker's hands, or settled; replies are those of the answered, one each |
| PoolRequests.FatesMoveOnward | src/embedder/worker/dispatch.rs:90-237 | no step moves a request backwards or touches a settled one |
| PoolRequests.TimeoutsConsumeNothing | src/embedder/worker/run.rs:116-135 | timeouts, shutdowns and exits happen with no request in hand and touch none |
| PoolRequests.FirstComeFirstServed | src/embedder/pool.rs:163-165 | in every run the submissions in order are the requests the workers together took, in the order taken, followed by the queue; none is taken twice |
| PoolRequests.SubmitIff | src/embedder/pool.rs:163-165 | a send goes through exactly while the channel is open with fewer than four requests per worker, or with nobody left to receive |
| PoolRequests.ClosingDrains | src/embedder/worker/run.rs:116-136 | in every run nothing is waiting once a worker has seen the channel closed |
| PoolRequests.EveryRequestSettles | src/embedder/worker/run.rs:116-240 | once the pool is gone every request was answered once, skipped or lost with the queue |
| PoolPaths.ProjectionIsPath | src/embedder/worker/run.rs:41-241 | each worker's share of every interleaving is a path of its automaton |
| PoolPaths.EndsExplainedInEveryRun | src/embedder/worker/run.rs:137-240 | a worker ends in a fatal build, in every interleaving, exactly when its last two actions are a fatal reply to a client and the exit |
| PoolPaths.CounterInEveryRun | src/embedder/worker/run.rs:80-226 | the counter theorem in every interleaving |
| PoolPaths.BreakerInEveryRun | src/embedder/worker/run.rs:222-235 | the breaker theorem in every interleaving |
| PoolCeiling.CeilingIsTopOfWarmed | src/embedder/worker/run.rs:87-114 | in every run the ceiling is the longest sequence of the range of all shapes startup, propagation and adaptive compiles successfully ran, and that range holds each of them |
| PoolCeiling.FoldsLongestWarmed | src/embedder/worker/run.rs:87-114 | each of the three folds in the longest sequence its own prewarm successfully ran |
| PoolCeiling.AdmissionNeverWithdrawn | src/embedder/worker/dispatch.rs:205-230 | no step of the pool withdraws an admission |
| PoolCeiling.StartupCoversGrid | src/embedder/worker/startup.rs:300-337 | once init is done every grid shape, run or skipped as cached, is in the warmed range unless its own startup run failed |
| PoolCeiling.StartupReachesGridMaximum | src/embedder/worker/startup.rs:328-337 | once init is done the ceiling reaches every grid shape whose own run did not fail, hence the grid's maximum unless every longest shape failed; empty shards allowed |
| PoolCeiling.AdmittedIsWarmedIff | src/embedder/jit_guard.rs:149-159 | in every run the guard admits only lengths in the warmed range exactly when that range reaches down to its threshold or the ceiling lies below it |
| PoolCeiling.WarmedBelowThresholdSuffices | src/embedder/jit_guard.rs:145-159 | one successful run of a prewarm, by any worker, at or below the threshold is enough |
| Devices.DistinctDevicesIff | src/embedder/pool.rs:149-162 | after the clamp GPU workers have distinct devices, exactly unless the device count does not fit a u32 |
| Devices.ClampIsLeast | src/embedder/pool.rs:149-162 | the clamp never adds workers nor takes the last one, and any more than it leaves would share a device; without a GPU the count stays |
| Startup.PoolQuietUntilOpen | src/bootstrap/probe_task.rs:61-131 | during the sweep and the checks no client request is in the pool and no handler even waits |
| Startup.ReadyFlipsOnceAndLate | src/bootstrap/readiness.rs:242-265 | ready flips at most once, after the cost model and a terminal status are stored |
| Startup.ReadyOnlyIfChecked | src/bootstrap/readiness.rs:248-265 | in every run ready means two checks made and passed; after a failed one it is never ready, the probe path ending with its permits back and the others aborted; the model is the one last handed over |
| Startup.OpenIffReady | src/handler/common.rs:112-124 | the flag is what opening sets, and the gate lets through exactly when it is set and a worker is alive |
| Startup.EveryoneCounted | src/handler/dense.rs:70-120 | handlers waiting, holding permits and requests in the pool are those of the run; a client that leaves does not take its request along |
| Startup.DrainIsImmediate | src/bootstrap/probe_task.rs:65-86 | the drain never waits and leaves no permit, or one with a single worker |
| Startup.PermitsBoundHandlers | src/handler/dense.rs:70-79 | handlers past the gate never exceed the permits due at that point, are none while the service is not open, and never exceed the route's final number |
| Startup.FinalPermitCounts | src/bootstrap/probe_task.rs:74-129 | N on the probe path for several workers, 2 for one, the initial permits otherwise |
| Startup.FullConcurrencyIff | src/state.rs:112-118 | exactly when the documented one permit per worker is reached |
| Startup.ReservedPermitNeverReturned | src/bootstrap/readiness.rs:171-183 | an override run ends open with the initial permits only |
| Startup.StatusReportsFit | src/bootstrap/probe_task.rs:107-118 | the probe path ends as Failed exactly when the stored coefficients are the conservative ones |
| Startup.StatusByRoute | src/bootstrap/readiness.rs:171-203 | in every run the status is Running until stored, then Disabled, CacheHit, or Complete or Failed by the route taken |
| WarmupShapes.ShardsPartitionGrid | src/embedder/trt_warmup.rs:217-231 | over all shards every shape occurs exactly as often as in the grid |
| WarmupShapes.ShardSize | src/embedder/trt_warmup.rs:225-230 | each shard's exact size |
| WarmupShapes.ShardsBalanced | src/embedder/trt_warmup.rs:217-231 | shard sizes differ by at most one |
| WarmupShapes.ShardsReachGridMaximum | src/embedder/worker/startup.rs:328-334 | some shard reaches the grid's longest sequence and none exceeds it |
| TrtWarmup.CoverageCheckShapes | src/embedder/trt_warmup.rs:158-196 | at most four distinct shapes of the shard that include every dimensional extreme |
| TrtWarmup.ExtremesDecideCoverage | src/embedder/trt_warmup.rs:249-258 | a range profile holds the shard exactly when it holds the check shapes |
| TrtWarmup.ExtremesReachMaximum | src/embedder/trt_warmup.rs:376-378 | the check shapes reach the shard's longest sequence |
| TrtWarmup.Session.RunWarmupShape | src/embedder/trt_warmup.rs:323-346 | a success is fast exactly inside the profile and ends inside it; a failure changes nothing |
| TrtWarmup.CheckPhase | src/embedder/trt_warmup.rs:318-345 | runs the check shapes, all fast exactly if reported, profile then unchanged |
| TrtWarmup.CompilePhase | src/embedder/trt_warmup.rs:382-410 | runs exactly the shapes that were not checks and tallies them |
| TrtWarmup.TrtPrewarm | src/embedder/trt_warmup.rs:277-430 | fully cached only if every shard shape is covered, warmed plus skipped is the shard, the maximum is the shard's; every success ends covered; no check shape runs twice; no false negatives either |
| TrtWarmup.SweptShapesCovered | src/embedder/trt_warmup.rs:277-430 | after a prewarm each shape of its shard is covered by any range holding its successful runs, unless its own run failed |
| TrtWarmup.SingleSweep | src/embedder/worker/run.rs:87-114 | a gaining prewarm of one shape ran that shape alone and succeeded, so the value folded is its length |
| TrtWarmup.GainedIff | src/embedder/worker/run.rs:97 | a prewarm gains coverage exactly when one of its runs succeeded |
| TrtWarmup.HullIsLeast | src/embedder/trt_warmup.rs:40-66 | the grown profile is the least one holding the old one and the shape |
| TrtWarmup.WithoutIsTheRest | src/embedder/trt_warmup.rs:385-389 | the full path runs each remaining shape as often as the shard lists it and no check shape |
| AdaptiveWarmup.RunAdaptiveWarmupLoop | src/embedder/adaptive_warmup.rs:103-219 | the loop computes the specified turns |
| AdaptiveWarmup.WaitForQuietWindow | src/embedder/adaptive_warmup.rs:242-269 | true exactly when the configured number of seconds in a row are idle, which takes at least that long; suspects drained meanwhile |
| AdaptiveWarmup.DrainChannel | src/embedder/adaptive_warmup.rs:223-233 | pending grows by exactly the suspects neither warmed nor pending, each once, in arrival order |
| AdaptiveWarmup.DrainAppends | src/embedder/adaptive_warmup.rs:223-233 | what a drain appends, for every list of suspects and every state |
| AdaptiveWarmup.NewOnesAreNew | src/embedder/adaptive_warmup.rs:223-233 | the suspects appended are the unknown ones, each once |
| AdaptiveWarmup.QuietReached | src/embedder/adaptive_warmup.rs:242-269 | the window is reached exactly when every remaining second is idle, and the clock then moved on by as many seconds |
| AdaptiveWarmup.TurnExplained | src/embedder/adaptive_warmup.rs:130-218 | when a turn submits the oldest shape, when it ends the task, and that every other turn takes a second or more |
| AdaptiveWarmup.TurnHears | src/embedder/adaptive_warmup.rs:103-178 | no suspect that reaches the loop during a turn is overlooked |
| AdaptiveWarmup.SuspectsStayKnown | src/embedder/adaptive_warmup.rs:103-178 | in every run it stays known from then on |
| AdaptiveWarmup.AnnouncesBuilt | src/embedder/adaptive_warmup.rs:186-205 | in every run exactly the successes that took measurable time are announced to the workers, in order |
| AdaptiveWarmup.AlwaysSound | src/embedder/adaptive_warmup.rs:108-218 | over every run pending is duplicate-free, first in first out and apart from warmed, each shape succeeds once, each budget window within the limit |
| AdaptiveWarmup.NeverResubmitted | src/embedder/adaptive_warmup.rs:179-181 | a shape that succeeded is not pending after any continuation of the run, and nothing fired in it is that shape |
| AdaptiveWarmup.AnyHourAtMostTwiceBudget | src/embedder/adaptive_warmup.rs:121-128 | any one-hour span holds at most twice the budget of successes |
| AdaptiveWarmup.CapsEveryHourIff | src/embedder/adaptive_warmup.rs:68 | over all runs every hour holds at most the budget exactly when the budget is 0 or budget times quiet seconds is at least 3600 |
| AdaptiveWarmup.CapHolds | src/embedder/adaptive_warmup.rs:121-128 | successes are a quiet window apart, so such a configuration never exceeds its budget in any hour |
| AdaptiveWarmup.BurstExceedsBudget | src/embedder/adaptive_warmup.rs:121-125 | for every budget whose quiet windows leave room in an hour, a run with one success over the budget within an hour |
| AdaptiveWarmup.DefaultsExceedBudget | src/config.rs:658-665 | the default configuration, twelve shapes and three seconds, does not meet the cap |
| SmTags.ExtractIffSuffix | src/embedder/trt_cache_gc.rs:232-247 | extraction yields a well-formed tag exactly when the stem ends in it behind an underscore |
| SmTags.ExtractAgreesWithEnumerator | src/embedder/trt_cache/enumerate.rs:32-35 | the collector reads a tag exactly when the enumerator matches it |
| SmTags.DistinctTagsDisjoint | src/embedder/trt_cache/enumerate.rs:22-27 | distinct tags select disjoint plans |
| SmTags.ParsedTagWellFormed | src/embedder/sm_detect.rs:89-99 | a parsed capability is a well-formed tag |
| SmTags.ParsesExactlyVersions | src/embedder/sm_detect.rs:89-99 | a tag is parsed exactly when the first non-blank line is two dot-separated digit strings |
| SmTags.FirstLineIff | src/embedder/sm_detect.rs:89-99 | the line parsed is the first that is not blank, trimmed |
| SmTags.TrimIff | src/embedder/sm_detect.rs:89-99 | trimming removes the surrounding spaces, all of them and nothing else |
| TrtCacheGc.StaleIff | src/embedder/trt_cache_gc.rs:129-145 | a plan is stale exactly when it matches a well-formed tag other than the current one |
| TrtCacheGc.SidecarIff | src/embedder/trt_cache_gc.rs:172-190 | a sidecar is exactly a plan's name with one of the two endings |
| TrtCacheGc.EngineCache.GcStaleSmPlans | src/embedder/trt_cache_gc.rs:109-219 | removes exactly the deletable stale plans and their deletable sidecars; counts, bytes and tags are exact |
| TrtCacheGc.SweepKeeps | src/embedder/trt_cache_gc.rs:93-98 | every plan the enumerator counts for the current GPU, sidecars of plans that stay and untagged files survive |
| TrtCacheGc.CountUnchanged | src/embedder/trt_cache/enumerate.rs:50-68 | the enumerator counts the same plans after the sweep |
| TrtCacheGc.NoStalePlanSurvives | src/embedder/trt_cache_gc.rs:129-170 | with successful deletions no stale plan is left |
| TrtCacheGc.SecondSweepIsNoOp | src/embedder/trt_cache_gc.rs:109-219 | a second sweep deletes nothing |
| TrtCacheGc.OrphanedSidecarStays | src/embedder/trt_cache_gc.rs:172-200 | a sidecar left behind by its plan is never collected |

## Left out

- The inference runtime, tokenizer, model download and weights: foreign code behind `Pipelines.RowLocal`.
- Rounding, NaN and infinities of `f64` and `f32`: arithmetic is over the reals; `normalize_l2` is a parameter.
- HTTP routing, JSON, TLS, logging, heartbeats, GPU statistics, the warmup-only entry point.
- Reading `/proc`, cgroups and RSS, fsync, the probe-cache file, the growth each sweep run reads: inputs here.
- SweepUsableIff: the list of shapes is that of a maximum of 8192, or of a lower one at a listed length; another maximum adds a shape whose length may be close to a listed one, and `TwoRunsUsableIff` says how close is too close. The arena warm-up, whose reading is discarded, is not modelled.
- ServiceFitsIff: on a GPU the workspace is device memory, which the service never measures; the statement then is about the host memory the floor check uses.
- Matching of error texts (JIT out-of-memory, fatal engine build): an oracle on errors.
- Overflow of batch times length products.
- Panics of a worker, at startup or in the request loop: the release profile aborts the process on a panic.
- Lagging of the broadcast channel beyond skipping messages, and the fairness of the receiver's lock.
- `/health` and `/health/deep`; most of configuration parsing.
- Files changed by other processes during a sweep, files whose size cannot be read, non-UTF-8 names.
- EmbedDense: the timings and the length distribution in its statistics are not modelled; for the FP16 and INT8 graphs every text must have a token, because position 0 of an empty text is padding and not a function of the text; the tokenizer always adds its two markers.
- InitNeverStuck: the join branch may fire whenever the worker has exited, even with a signal in the channel, because the two branches of the select are polled one after the other.
- EmbedSparse: the timings and the length distribution in its statistics are not modelled.
- EmbedBoth: the timings and the length distribution in its statistics are not modelled.
- The workers in `Startup` are the configured number, as in the source; on a GPU the pool may be clamped to fewer.
