/** The whole pool's memory: whatever the workers are running, does it stay within what was detected?
    (src/binpack.rs, src/bootstrap/readiness.rs) */
module PoolMemory {
  import opened Numbers
  import opened Outcomes
  import opened CostModels
  import opened Sorting
  import opened BinPacking
  import opened PackingLaws
  import opened Budget
  import TrtRetry
  import opened ProbeSweep
  import Fit

  // ---- A pool at work ----

  datatype Host = Host(availableBytes: usize, workers: usize, modelRss: usize) {

    /** This much workspace, the models and the headroom are within the available bytes. */
    predicate Holds(workspace: nat) { workspace + workers * modelRss + OS_HEADROOM_BYTES <= availableBytes }

    /** So is this much for every worker at once. */
    predicate HoldsEach(workspace: nat) { Holds(workers * workspace) }

    function Share(safety: real): usize { ComputeWorkspaceBudget(availableBytes, workers, modelRss, safety).perWorkerWorkspace }
  }

  /** What a request may ask for: so many texts, of so many tokens each. */
  datatype Limits = Limits(maxBatch: nat, maxSeq: nat)

  /** A worker in the middle of a request: the cost model it packed with, its texts' lengths, their
      chunks, the running chunk. */
  datatype Load = Load(cm: CostModel, lens: seq<nat>, chunks: seq<seq<nat>>, running: nat)

  predicate Running(load: Load) {
    load.running < |load.chunks| && InRange(load.chunks[load.running], |load.lens|)
  }

  ghost predicate ValidLoad(load: Load, limits: Limits, models: set<CostModel>) {
    && load.cm in models
    && |load.lens| <= limits.maxBatch && (forall i :: 0 <= i < |load.lens| ==> load.lens[i] <= limits.maxSeq)
    && IsPacking(load.chunks, load.lens, load.cm)
    && Running(load)
  }

  function RunningCost(load: Load): nat
    requires Running(load)
  {
    var chunk := load.chunks[load.running];
    load.cm.ChunkCost(|chunk|, ChunkSeq(chunk, load.lens))
  }

  function PoolCost(loads: seq<Load>): nat
    requires forall l :: 0 <= l < |loads| ==> Running(loads[l])
  {
    if loads == [] then 0 else RunningCost(loads[0]) + PoolCost(loads[1..])
  }

  /** These busy workers, the models and the headroom together exceed the available bytes. */
  ghost predicate Outgrows(loads: seq<Load>, host: Host, limits: Limits, models: set<CostModel>) {
    && |loads| <= host.workers && (forall l :: 0 <= l < |loads| ==> ValidLoad(loads[l], limits, models))
    && !host.Holds(PoolCost(loads))
  }

  /** Every way to keep up to all workers busy, each with any of these cost models, leaves the pool
      within the available bytes. */
  ghost predicate PoolAlwaysFits(host: Host, limits: Limits, models: set<CostModel>) {
    forall loads: seq<Load> :: !Outgrows(loads, host, limits, models)
  }

  // ---- The shapes a worker can run ----

  /** The packer lets through one text alone, or any chunk that fits the budget. */
  predicate Runnable(limits: Limits, cm: CostModel, count: nat, seqLen: nat) {
    1 <= count <= limits.maxBatch && seqLen <= limits.maxSeq && (count == 1 || cm.Fits(count, seqLen))
  }

  /** All workers can run any one such shape at once. */
  ghost predicate EveryShapeFits(host: Host, limits: Limits, models: set<CostModel>) {
    forall cm: CostModel, count: nat, seqLen: nat :: cm in models && Runnable(limits, cm, count, seqLen) ==>
      host.HoldsEach(cm.ChunkCost(count, seqLen))
  }

  /** Whatever a worker is running is such a shape. */
  lemma RunsRunnable(load: Load, limits: Limits, models: set<CostModel>)
    requires ValidLoad(load, limits, models)
    ensures var chunk := load.chunks[load.running];
      Runnable(limits, load.cm, |chunk|, ChunkSeq(chunk, load.lens))
  {
    hide CostModel.Fits, ChunkSeq, Packs, SortedByLength;
    var chunk := load.chunks[load.running];
    PackedChunk(load.chunks, Flatten(load.chunks), load.lens, load.cm, load.running);
    PackedSize(load.chunks, |load.lens|, load.running);
    hide IsPermutation, IsPacking, Flatten;
    LongestAtMost(chunk, load.lens, limits.maxSeq);
  }

  lemma LongestAtMost(chunk: seq<nat>, lens: seq<nat>, bound: nat)
    requires InRange(chunk, |lens|) && forall i :: 0 <= i < |lens| ==> lens[i] <= bound
    ensures ChunkSeq(chunk, lens) <= bound
  {
    ChunkSeqBounds(chunk, lens);
  }

  lemma PackedSize(chunks: seq<seq<nat>>, n: nat, c: nat)
    requires IsPermutation(Flatten(chunks), n) && c < |chunks|
    ensures |chunks[c]| <= n
  {
    OffsetsAscend(chunks, c, |chunks|);
    assert chunks[..|chunks|] == chunks;
  }

  /** So many equal texts, packed into one chunk. */
  function EqualTexts(cm: CostModel, count: nat, seqLen: nat): Load {
    Load(cm, Equal(count, seqLen), [UpTo(count)], 0)
  }

  function UpTo(n: nat): (s: seq<nat>) { seq(n, i => i) }

  /** Every such shape is what some worker may be running. */
  lemma EqualTextsRun(limits: Limits, models: set<CostModel>, cm: CostModel, count: nat, seqLen: nat)
    requires cm in models && Runnable(limits, cm, count, seqLen)
    ensures ValidLoad(EqualTexts(cm, count, seqLen), limits, models)
    ensures RunningCost(EqualTexts(cm, count, seqLen)) == cm.ChunkCost(count, seqLen)
  {
    hide CostModel.Fits, CostModel.ChunkCost, ChunkSeq, IsPacking, IsPermutation, SortedByLength;
    EqualLengths(count, seqLen);
    EqualInRange(count, seqLen);
    hide Equal, UpTo;
    OneChunk(UpTo(count), Equal(count, seqLen), cm);
  }

  lemma EqualInRange(count: nat, seqLen: nat)
    ensures |UpTo(count)| == |Equal(count, seqLen)| == count && InRange(UpTo(count), count)
    ensures forall i :: 0 <= i < count ==> Equal(count, seqLen)[i] == seqLen
  {}

  function Equal(count: nat, seqLen: nat): (lens: seq<nat>) { seq(count, i => seqLen) }

  lemma EqualLengths(count: nat, seqLen: nat)
    requires count > 0
    ensures var chunk, lens := UpTo(count), Equal(count, seqLen);
      IsPermutation(chunk, count) && ChunkSeq(chunk, lens) == seqLen && SortedByLength(chunk, lens)
  {
    ChunkSeqBounds(UpTo(count), Equal(count, seqLen));
  }

  lemma OneChunk(chunk: seq<nat>, lens: seq<nat>, cm: CostModel)
    requires chunk != [] && IsPermutation(chunk, |lens|) && Admissible(chunk, lens, cm) && SortedByLength(chunk, lens)
    ensures IsPacking([chunk], lens, cm)
  {
    hide CostModel.Fits, ChunkSeq;
    assert Front([chunk]) == [] && Flatten([]) == [];
    assert Flatten([chunk]) == chunk;
    assert chunk[|chunk| - |chunk|..] == chunk && chunk[..0] == [];
    assert Packs([], [], lens, cm);
  }

  // ---- The exact condition ----

  lemma OneMoreShare(n: nat, w: nat)
    ensures (n + 1) * w == n * w + w
  {}

  lemma {:induction false} CostliestLoad(loads: seq<Load>) returns (top: nat)
    requires loads != [] && forall l :: 0 <= l < |loads| ==> Running(loads[l])
    ensures top < |loads| && PoolCost(loads) <= |loads| * RunningCost(loads[top])
    ensures forall l :: 0 <= l < |loads| ==> RunningCost(loads[l]) <= RunningCost(loads[top])
  {
    hide Running, RunningCost;
    top := 0;
    if |loads| > 1 {
      var t := CostliestLoad(loads[1..]);
      top := if RunningCost(loads[0]) <= RunningCost(loads[t + 1]) then t + 1 else 0;
      NatProductMonotone(|loads| - 1, RunningCost(loads[1..][t]), |loads| - 1, RunningCost(loads[top]));
      assert forall l :: 1 <= l < |loads| ==> loads[l] == loads[1..][l - 1];
    }
    OneMoreShare(|loads| - 1, RunningCost(loads[top]));
  }

  lemma {:induction false} AllAlike(n: nat, load: Load)
    requires Running(load)
    ensures PoolCost(seq(n, i => load)) == n * RunningCost(load)
  {
    hide Running, RunningCost;
    if n > 0 {
      AllAlike(n - 1, load);
      assert seq(n, i => load)[1..] == seq(n - 1, i => load);
      OneMoreShare(n - 1, RunningCost(load));
    }
  }

  lemma FitsIfShapesDo(host: Host, limits: Limits, models: set<CostModel>, loads: seq<Load>, cm: CostModel)
    requires EveryShapeFits(host, limits, models) && cm in models && limits.maxBatch >= 1
    ensures !Outgrows(loads, host, limits, models)
  {
    if |loads| <= host.workers && forall l :: 0 <= l < |loads| ==> ValidLoad(loads[l], limits, models) {
      assert Runnable(limits, cm, 1, 0);
      if loads != [] {
        var top := CostliestLoad(loads);
        RunsRunnable(loads[top], limits, models);
        hide IsPacking, Runnable, PoolCost, ChunkSeq, CostModel.ChunkCost;
        NatProductMonotone(|loads|, RunningCost(loads[top]), host.workers, RunningCost(loads[top]));
      } else {
        hide CostModel.ChunkCost;
        assert host.workers * cm.ChunkCost(1, 0) >= 0;
      }
    }
  }

  /**
   * End to end, for every cost model, however its coefficients and its budget were come by: workers
   * each inside any chunk of any request, their models and the OS headroom together always stay
   * within the available memory exactly when every shape the packer lets through does with all
   * workers running it at once.
   */
  lemma FitsIffShapesDo(host: Host, limits: Limits, models: set<CostModel>)
    requires models != {} && limits.maxBatch >= 1
    ensures PoolAlwaysFits(host, limits, models) <==> EveryShapeFits(host, limits, models)
  {
    hide ValidLoad, RunningCost, PoolCost, CostModel.ChunkCost, Outgrows;
    if EveryShapeFits(host, limits, models) {
      var cm :| cm in models;
      forall loads: seq<Load> ensures !Outgrows(loads, host, limits, models) {
        FitsIfShapesDo(host, limits, models, loads, cm);
      }
    }
    if PoolAlwaysFits(host, limits, models) {
      forall cm: CostModel, count: nat, seqLen: nat | cm in models && Runnable(limits, cm, count, seqLen)
        ensures host.HoldsEach(cm.ChunkCost(count, seqLen))
      {
        ShapeRunsEverywhere(host, limits, models, cm, count, seqLen);
      }
    }
  }

  lemma ShapeRunsEverywhere(host: Host, limits: Limits, models: set<CostModel>, cm: CostModel, count: nat, seqLen: nat)
    requires PoolAlwaysFits(host, limits, models) && cm in models && Runnable(limits, cm, count, seqLen)
    ensures host.HoldsEach(cm.ChunkCost(count, seqLen))
  {
    var load := EqualTexts(cm, count, seqLen);
    EqualTextsRun(limits, models, cm, count, seqLen);
    var loads := seq(host.workers, i => load);
    assert Running(load) && |loads| == host.workers && forall l :: 0 <= l < |loads| ==> loads[l] == load;
    hide *;
    AllAlike(host.workers, load);
    BusyPoolFits(host, limits, models, loads);
    EachAtOnce(host, cm.ChunkCost(count, seqLen));
  }

  lemma BusyPoolFits(host: Host, limits: Limits, models: set<CostModel>, loads: seq<Load>)
    requires PoolAlwaysFits(host, limits, models) && |loads| <= host.workers
    requires forall l :: 0 <= l < |loads| ==> Running(loads[l]) && ValidLoad(loads[l], limits, models)
    ensures host.Holds(PoolCost(loads))
  {
    hide ValidLoad, Running, PoolCost, Host.Holds;
    assert !Outgrows(loads, host, limits, models);
  }

  lemma EachAtOnce(host: Host, workspace: nat)
    ensures host.HoldsEach(workspace) <==> host.Holds(host.workers * workspace)
  {}

  // ---- Budgets ----

  /** The whole pool is safe under a cost model whose budget and longest text both fit n times; no
      matter where the budget comes from. */
  lemma FitsIfSharesDo(host: Host, limits: Limits, cm: CostModel)
    requires limits.maxBatch >= 1
    requires host.HoldsEach(cm.ChunkCost(1, limits.maxSeq))
    requires cm.maxWorkspaceBytes > 0 ==> host.HoldsEach(cm.maxWorkspaceBytes)
    ensures PoolAlwaysFits(host, limits, {cm})
  {
    FitsIffShapesDo(host, limits, {cm});
    hide PoolAlwaysFits, CostModel.ChunkCost, Host.HoldsEach;
    forall count: nat, seqLen: nat | Runnable(limits, cm, count, seqLen)
      ensures host.HoldsEach(cm.ChunkCost(count, seqLen))
    {
      if count == 1 {
        ChunkCostMonotone(cm, 1, seqLen, cm, 1, limits.maxSeq);
      }
      Within(host, cm.ChunkCost(count, seqLen),
             if count == 1 || cm.maxWorkspaceBytes == 0 then cm.ChunkCost(1, limits.maxSeq) else cm.maxWorkspaceBytes);
    }
  }

  lemma Within(host: Host, cost: nat, bound: nat)
    requires host.HoldsEach(bound) && cost <= bound
    ensures host.HoldsEach(cost)
  {
    NatProductMonotone(host.workers, cost, host.workers, bound);
  }

  /** Some runnable shape uses the budget up. */
  predicate Spends(limits: Limits, cm: CostModel, count: nat, seqLen: nat) {
    Runnable(limits, cm, count, seqLen) && cm.ChunkCost(count, seqLen) == cm.maxWorkspaceBytes
  }

  /** The cost of one longest text, or the budget if that is more. */
  function Peak(limits: Limits, cm: CostModel): nat { Max(cm.ChunkCost(1, limits.maxSeq), cm.maxWorkspaceBytes) }

  /** A budget some shape uses up must fit once for every worker, and then that is all it takes. */
  lemma SpentBudgetFitsIff(host: Host, limits: Limits, cm: CostModel, count: nat, seqLen: nat)
    requires Spends(limits, cm, count, seqLen)
    ensures PoolAlwaysFits(host, limits, {cm}) <==> host.HoldsEach(Peak(limits, cm))
  {
    FitsIffShapesDo(host, limits, {cm});
    var longest := cm.ChunkCost(1, limits.maxSeq);
    assert Runnable(limits, cm, 1, limits.maxSeq);
    hide PoolAlwaysFits, CostModel.ChunkCost, Runnable, Host.HoldsEach;
    if host.HoldsEach(Peak(limits, cm)) {
      Within(host, longest, Peak(limits, cm));
      Within(host, cm.maxWorkspaceBytes, Peak(limits, cm));
      FitsIfSharesDo(host, limits, cm);
    }
  }

  /**
   * With the computed budget, and every pair of coefficients, the longest text decides: the pool
   * always fits exactly when one longest text per worker does, despite every floor, cast and
   * saturating subtraction on the way.
   */
  lemma PoolFitsIff(host: Host, limits: Limits, safety: real, a: real, b: real)
    requires host.workers >= 1 && safety <= 1.0 && limits.maxBatch >= 1
    ensures var cm := CostModel(a, b, host.Share(safety));
      PoolAlwaysFits(host, limits, {cm}) <==> host.HoldsEach(cm.ChunkCost(1, limits.maxSeq))
  {
    var cm := CostModel(a, b, host.Share(safety));
    if host.Share(safety) > 0 {
      BudgetIsSound(host.availableBytes, host.workers, host.modelRss, safety);
    }
    hide ComputeWorkspaceBudget, CostModel.ChunkCost, PoolAlwaysFits;
    if host.HoldsEach(cm.ChunkCost(1, limits.maxSeq)) {
      FitsIfSharesDo(host, limits, cm);
    } else {
      FitsIffShapesDo(host, limits, {cm});
      assert Runnable(limits, cm, 1, limits.maxSeq);
    }
  }

  /** In particular, past the floor check every pair no larger than the conservative one is safe with
      the computed budget. */
  lemma PoolFitsInMemory(host: Host, limits: Limits, safety: real, a: real, b: real)
    requires host.workers >= 1 && safety <= 1.0 && limits.maxBatch >= 1 && 1 <= limits.maxSeq <= MODEL_MAX_SEQ
    requires a <= CONSERVATIVE_A && b <= CONSERVATIVE_B
    requires FloorPasses(ComputeWorkspaceBudget(host.availableBytes, host.workers, host.modelRss, safety), limits.maxSeq)
    ensures PoolAlwaysFits(host, limits, {CostModel(a, b, host.Share(safety))})
  {
    var cm := CostModel(a, b, host.Share(safety));
    FloorIsExact(limits.maxSeq);
    ChunkCostMonotone(cm, 1, limits.maxSeq, Conservative(0), 1, limits.maxSeq);
    BudgetIsSound(host.availableBytes, host.workers, host.modelRss, safety);
    PoolFitsIff(host, limits, safety, a, b);
    hide ComputeWorkspaceBudget, CostModel.ChunkCost, PoolAlwaysFits;
    Within(host, cm.ChunkCost(1, limits.maxSeq), host.Share(safety));
  }

  // ---- The retry ----

  /** With workers on either budget, the pool fits exactly when it does with the larger of the base
      budget and 1 MiB on all of them. */
  lemma RetriesFitIff(host: Host, limits: Limits, cm: CostModel)
    requires limits.maxBatch >= 1
    ensures PoolAlwaysFits(host, limits, {cm, TrtRetry.Halved(cm)}) <==>
      PoolAlwaysFits(host, limits, {cm.(maxWorkspaceBytes := Max(cm.maxWorkspaceBytes, TrtRetry.MIB))})
  {
    var halved, wide := TrtRetry.Halved(cm), cm.(maxWorkspaceBytes := Max(cm.maxWorkspaceBytes, TrtRetry.MIB));
    FitsIffShapesDo(host, limits, {cm, halved});
    FitsIffShapesDo(host, limits, {wide});
    hide PoolAlwaysFits;
    forall count: nat, seqLen: nat
      ensures Runnable(limits, wide, count, seqLen) <==>
        Runnable(limits, cm, count, seqLen) || Runnable(limits, halved, count, seqLen)
      ensures wide.ChunkCost(count, seqLen) == cm.ChunkCost(count, seqLen) == halved.ChunkCost(count, seqLen)
    {
      SameCost(cm, halved, count, seqLen);
      SameCost(cm, wide, count, seqLen);
    }
    hide Runnable, CostModel.ChunkCost, Host.HoldsEach;
    SameShapes(host, limits, cm, halved, wide);
  }

  lemma SameCost(cm: CostModel, cm': CostModel, count: nat, seqLen: nat)
    requires cm.a == cm'.a && cm.b == cm'.b
    ensures cm.ChunkCost(count, seqLen) == cm'.ChunkCost(count, seqLen)
  {
    ChunkCostMonotone(cm, count, seqLen, cm', count, seqLen);
    ChunkCostMonotone(cm', count, seqLen, cm, count, seqLen);
  }

  lemma SameShapes(host: Host, limits: Limits, cm: CostModel, cm': CostModel, wide: CostModel)
    requires forall count: nat, seqLen: nat :: Runnable(limits, wide, count, seqLen) <==>
      Runnable(limits, cm, count, seqLen) || Runnable(limits, cm', count, seqLen)
    requires forall count: nat, seqLen: nat ::
      wide.ChunkCost(count, seqLen) == cm.ChunkCost(count, seqLen) == cm'.ChunkCost(count, seqLen)
    ensures EveryShapeFits(host, limits, {cm, cm'}) <==> EveryShapeFits(host, limits, {wide})
  {
    hide Runnable, CostModel.ChunkCost, Host.HoldsEach;
  }

  /** So from 1 MiB up a retry costs the pool nothing, and below it can. */
  lemma RetryKeepsFit(host: Host, limits: Limits, cm: CostModel)
    requires limits.maxBatch >= 1 && cm.maxWorkspaceBytes >= TrtRetry.MIB && PoolAlwaysFits(host, limits, {cm})
    ensures PoolAlwaysFits(host, limits, {cm, TrtRetry.Halved(cm)})
  {
    RetriesFitIff(host, limits, cm);
    assert cm.(maxWorkspaceBytes := Max(cm.maxWorkspaceBytes, TrtRetry.MIB)) == cm;
  }

  lemma TinyRetryOutgrows()
    ensures var host, limits, cm := Host(OS_HEADROOM_BYTES + 600000, 1, 0), Limits(2, 20), Conservative(600000);
      && PoolAlwaysFits(host, limits, {cm}) && !PoolAlwaysFits(host, limits, {cm, TrtRetry.Halved(cm)})
  {
    var host, limits, cm := Host(OS_HEADROOM_BYTES + 600000, 1, 0), Limits(2, 20), Conservative(600000);
    TrtRetry.TinyBudgetGrows();
    FitsMonotone(TrtRetry.Halved(cm), 2, 20, 2, 20);
    SmallCosts();
    hide PoolAlwaysFits, CostModel.ChunkCost;
    FitsIfSharesDo(host, limits, cm);
    FitsIffShapesDo(host, limits, {cm, TrtRetry.Halved(cm)});
    assert Runnable(limits, TrtRetry.Halved(cm), 2, 20);
  }

  lemma SmallCosts()
    ensures Conservative(600000).ChunkCost(1, 20) <= 600000
    ensures TrtRetry.Halved(Conservative(600000)).ChunkCost(2, 20) > 600000
  {
    assert 16384.0 * 20 as real == 327680.0;
    assert 8.0 * 20 as real == 160.0;
    assert 160.0 * 20 as real == 3200.0;
    assert 16384.0 * 40 as real == 655360.0;
    assert 8.0 * 40 as real == 320.0;
    assert 320.0 * 20 as real == 6400.0;
  }

  // ---- One worker's share ----

  /** When one longest text fits the budget, so does every chunk. */
  lemma EveryChunkFits(load: Load, limits: Limits, cm: CostModel)
    requires ValidLoad(load, limits, {cm}) && cm.Fits(1, limits.maxSeq)
    ensures RunningCost(load) <= cm.maxWorkspaceBytes
  {
    var seqLen := ChunkSeq(load.chunks[load.running], load.lens);
    RunsRunnable(load, limits, {cm});
    hide IsPacking, ChunkSeq;
    FitsMonotone(cm, 1, seqLen, 1, limits.maxSeq);
  }

  /** All chunks of all requests fit the budget exactly when one longest text does. */
  lemma EveryLoadFitsIff(limits: Limits, cm: CostModel)
    requires limits.maxBatch >= 1
    ensures (forall load :: ValidLoad(load, limits, {cm}) ==> RunningCost(load) <= cm.maxWorkspaceBytes)
      <==> cm.Fits(1, limits.maxSeq)
  {
    hide CostModel.ChunkCost, IsPacking, RunningCost;
    if cm.Fits(1, limits.maxSeq) {
      forall load | ValidLoad(load, limits, {cm}) ensures RunningCost(load) <= cm.maxWorkspaceBytes {
        EveryChunkFits(load, limits, cm);
      }
    } else {
      EqualTextsRun(limits, {cm}, cm, 1, limits.maxSeq);
    }
  }

  // ---- Fitted coefficients ----

  /** A sweep on the small host: the process holds its model and not yet 2.75 GiB before any shape, and
      what every shape's run then adds lies on the plane 262144 N + 8 N s. */
  ghost predicate SteepReadings(readings: nat -> Reading) {
    forall i :: 0 <= i < |SHAPES| ==>
      0x8000_0000 <= readings(i).rss <= 0xB000_0000 && readings(i).delta == Some(PlaneGrowth(262144, 8)(i))
  }

  lemma ShapeCosts(workspace: nat, i: nat)
    requires i < |SHAPES|
    ensures var cost := Conservative(workspace).ChunkCost(SHAPES[i].0, SHAPES[i].1);
      if i < 6 then cost <= 201326592 else cost == 671088640
  {
    Listed(i);
    ConservativeCost(workspace, SHAPES[i].0, SHAPES[i].1);
    hide CostModel.ChunkCost;
  }

  /** There the guards let through all shapes but the longest. */
  lemma SmallHostAdmits(rss: usize, i: nat)
    requires 0x8000_0000 <= rss <= 0xB000_0000 && i < |SHAPES|
    ensures Admitted(SmallHost().perWorkerWorkspace, 0x1_0000_0000, rss, SHAPES[i].0, SHAPES[i].1) <==> i < 6
  {
    SmallHostBudget();
    ShapeCosts(SmallHost().perWorkerWorkspace, i);
    hide SmallHost, FloorPasses, SHAPES, CostModel.ChunkCost;
  }

  /**
   * The floor check alone is not enough: it uses the conservative coefficients, and the probe may
   * fit larger ones. A sweep whose one fit is (262144, 8) lets a text of maximal length push the
   * small host past its memory although its budget passes the check.
   */
  lemma FittedCoefficientsCanOutgrowFloor(readings: nat -> Reading, places: seq<nat>, maxBatch: nat)
    requires maxBatch >= 1 && SteepReadings(readings) && Places(places, |SHAPES|)
    requires forall i :: 0 <= i < |SHAPES| ==>
      (i in places <==> Measures(SHAPES, SmallHost().perWorkerWorkspace, 0x1_0000_0000, readings, i))
    ensures FloorPasses(SmallHost(), MODEL_MAX_SEQ)
    ensures forall r :: Fit.IsFit(Measured(SHAPES, places, Delta(readings)), r) <==> r == Some((262144.0, 8.0))
    ensures var host := Host(0x1_0000_0000, 1, 0x8000_0000);
      !PoolAlwaysFits(host, Limits(maxBatch, MODEL_MAX_SEQ), {CostModel(262144.0, 8.0, host.Share(1.0))})
  {
    SmallHostBudget();
    SteepSweep(readings, places);
    var host := Host(0x1_0000_0000, 1, 0x8000_0000);
    var cm := CostModel(262144.0, 8.0, host.Share(1.0));
    PoolFitsIff(host, Limits(maxBatch, MODEL_MAX_SEQ), 1.0, 262144.0, 8.0);
    hide SmallHost, FloorPasses, Fit.IsFit, PoolAlwaysFits, Measures, Host.Share;
    OutgrownCost(cm);
  }

  lemma SteepSweep(readings: nat -> Reading, places: seq<nat>)
    requires SteepReadings(readings) && Places(places, |SHAPES|)
    requires forall i :: 0 <= i < |SHAPES| ==>
      (i in places <==> Measures(SHAPES, SmallHost().perWorkerWorkspace, 0x1_0000_0000, readings, i))
    ensures forall r :: Fit.IsFit(Measured(SHAPES, places, Delta(readings)), r) <==> r == Some((262144.0, 8.0))
  {
    SmallHostAdmits(readings(0).rss, 0);
    SmallHostAdmits(readings(5).rss, 5);
    hide Admitted, SmallHost;
    assert 0 in places && 5 in places;
    var data := Data(places, PlaneGrowth(262144, 8));
    assert data == Measured(SHAPES, places, Delta(readings));
    assert !Fit.OneLength(data) by {
      TwoMeasured(places, PlaneGrowth(262144, 8), 0, 5);
    }
    SweepRecovers(places, 262144, 8);
  }

  lemma TwoMeasured(places: seq<nat>, delta: nat -> nat, x: nat, y: nat)
    requires Places(places, |SHAPES|) && x in places && y in places && SHAPES[x].1 < SHAPES[y].1
    ensures !Fit.OneLength(Data(places, delta))
  {
    var i :| 0 <= i < |places| && places[i] == x;
    var j :| 0 <= j < |places| && places[j] == y;
    var data := Data(places, delta);
    ShapesSpread(x, y);
    if j < i {
      ShapesAscend(y, x);
    }
    assert data[i].seqLen == SHAPES[x].1 && data[j].seqLen == SHAPES[y].1;
  }

  lemma OutgrownCost(cm: CostModel)
    requires cm.a == 262144.0 && cm.b == 8.0
    ensures cm.ChunkCost(1, MODEL_MAX_SEQ) == 2684354560
  {
    assert 262144.0 * 8192 as real == 2147483648.0;
    assert 8.0 * 8192 as real == 65536.0;
    assert 65536.0 * 8192 as real == 536870912.0;
  }
}
