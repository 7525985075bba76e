/** Workspace budget and physics floor (src/bootstrap/budget.rs). */
module Budget {
  import opened Numbers
  import opened CostModels

  const OS_HEADROOM_BYTES: nat := 256 * 1024 * 1024
  const MODEL_MAX_SEQ: nat := 8192

  type usize = x: nat | x <= USIZE_MAX

  function SaturatingSub(x: usize, y: usize): usize { if x <= y then 0 else x - y }

  function SaturatingAdd(x: usize, y: usize): usize { Min(x + y, USIZE_MAX) }

  function SaturatingMul(x: usize, y: usize): usize { Min(x * y, USIZE_MAX) }

  /** The cast `x as usize` of a float. */
  function CastUsize(x: real): usize {
    if x <= 0.0 then 0 else if x >= USIZE_MAX as real then USIZE_MAX else x.Floor
  }

  /** Float division as IEEE 754 has it for a zero divisor, followed by the cast (NaN becomes 0). */
  function DivideAndCast(x: real, n: usize): usize {
    if n == 0 then (if x > 0.0 then USIZE_MAX else 0) else CastUsize(x / n as real)
  }

  datatype WorkspaceBudget = WorkspaceBudget(perWorkerWorkspace: usize, worstCasePeak: usize, utilizationPct: real)

  function TotalWorkspace(availableBytes: usize, workers: usize, modelRss: usize): usize {
    SaturatingSub(SaturatingSub(availableBytes, SaturatingMul(workers, modelRss)), OS_HEADROOM_BYTES)
  }

  function PerWorkerWorkspace(total: usize, workers: usize, safety: real): usize {
    DivideAndCast(total as real * safety, workers)
  }

  function WorstCasePeak(workers: usize, perWorker: usize, modelRss: usize): usize {
    SaturatingAdd(SaturatingAdd(SaturatingMul(workers, perWorker), SaturatingMul(workers, modelRss)), OS_HEADROOM_BYTES)
  }

  function ComputeWorkspaceBudget(availableBytes: usize, workers: usize, modelRss: usize, safety: real): WorkspaceBudget {
    var perWorker := PerWorkerWorkspace(TotalWorkspace(availableBytes, workers, modelRss), workers, safety);
    var peak := WorstCasePeak(workers, perWorker, modelRss);
    var pct := if availableBytes > 0 then peak as real / availableBytes as real * 100.0 else 0.0;
    WorkspaceBudget(perWorker, peak, pct)
  }

  /** Workspace of one text of maximal length under the conservative model; the u128 cast wraps. */
  function PhysicsFloor(maxSeq: nat): usize {
    Conservative(0).ChunkCost(1, maxSeq) % (USIZE_MAX + 1)
  }

  /** The readiness probe goes on only with a budget at or above the floor. */
  predicate FloorPasses(budget: WorkspaceBudget, maxSeq: nat) {
    budget.perWorkerWorkspace >= PhysicsFloor(maxSeq)
  }

  lemma FloorIsExact(maxSeq: nat)
    requires 1 <= maxSeq <= MODEL_MAX_SEQ
    ensures 0 < PhysicsFloor(maxSeq) == Conservative(0).ChunkCost(1, maxSeq)
  {
    var cm := Conservative(0);
    assert cm.LinearBytes(1) == 16384;
    LinearMonotone(cm, 1, cm, maxSeq);
    ChunkCostMonotone(cm, 1, maxSeq, cm, 1, MODEL_MAX_SEQ);
    assert 16384.0 * 8192 as real == 134217728.0;
    assert 8.0 * 8192 as real == 65536.0;
    assert 65536.0 * 8192 as real == 536870912.0;
    assert cm.ChunkCost(1, MODEL_MAX_SEQ) == 671088640;
  }

  /** A share passes exactly when it holds one text of maximal length at the conservative cost. */
  lemma FloorPassesIff(budget: WorkspaceBudget, maxSeq: nat)
    requires 1 <= maxSeq <= MODEL_MAX_SEQ
    ensures FloorPasses(budget, maxSeq) <==> 16384 * maxSeq + 8 * (maxSeq * maxSeq) <= budget.perWorkerWorkspace
  {
    FloorIsExact(maxSeq);
    ConservativeCost(0, 1, maxSeq);
    FloorInRange(maxSeq);
    hide PhysicsFloor, CostModel.ChunkCost;
  }

  lemma FloorInRange(maxSeq: nat)
    requires maxSeq <= MODEL_MAX_SEQ
    ensures PositionBytes(1 * maxSeq, maxSeq) == 16384 * maxSeq + 8 * (maxSeq * maxSeq) < U128_MAX
  {
    NatProductMonotone(maxSeq, maxSeq, 8192, 8192);
  }

  /** n shares of the floored quotient never exceed the dividend. */
  lemma SharesFitTotal(total: usize, safety: real, n: usize)
    requires n >= 1 && safety <= 1.0
    ensures n * PerWorkerWorkspace(total, n, safety) <= total
  {
    var x := total as real * safety;
    var q := x / n as real;
    assert x <= total as real by {
      assert total as real * (1.0 - safety) >= 0.0;
    }
    assert q * n as real == x;
    if q <= 0.0 {
      assert CastUsize(q) == 0;
    } else {
      var w := CastUsize(q);
      assert w as real <= q;
      assert n as real * w as real <= n as real * q;
      assert (n * w) as real == n as real * w as real;
    }
  }

  lemma NothingToShare(total: usize, safety: real, n: usize)
    requires n >= 1 && total == 0
    ensures PerWorkerWorkspace(total, n, safety) == 0
  {
    assert 0.0 * safety == 0.0;
    assert 0.0 / n as real == 0.0;
  }

  /** A positive budget means nothing saturated: the pool's shares add up to at most what is there. */
  lemma BudgetIsSound(availableBytes: usize, workers: usize, modelRss: usize, safety: real)
    requires workers >= 1 && safety <= 1.0
    requires ComputeWorkspaceBudget(availableBytes, workers, modelRss, safety).perWorkerWorkspace > 0
    ensures var w := ComputeWorkspaceBudget(availableBytes, workers, modelRss, safety);
      && workers * w.perWorkerWorkspace + workers * modelRss + OS_HEADROOM_BYTES <= availableBytes
      && w.worstCasePeak == workers * w.perWorkerWorkspace + workers * modelRss + OS_HEADROOM_BYTES
  {
    hide PerWorkerWorkspace, WorstCasePeak, TotalWorkspace;
    var total := TotalWorkspace(availableBytes, workers, modelRss);
    if total == 0 { NothingToShare(total, safety, workers); }
    SharesFitTotal(total, safety, workers);
    TotalIsExact(availableBytes, workers, modelRss);
    PeakIsExact(workers, PerWorkerWorkspace(total, workers, safety), modelRss, availableBytes);
  }

  /** A worker's share is the largest whole number of bytes whose n copies fit in the safe part of what
      the models and the headroom leave; nothing if they leave nothing. */
  lemma ShareIsLargest(availableBytes: usize, workers: usize, modelRss: usize, safety: real)
    requires workers >= 1 && 0.0 <= safety <= 1.0
    ensures var share := ComputeWorkspaceBudget(availableBytes, workers, modelRss, safety).perWorkerWorkspace;
      var free := availableBytes - workers * modelRss - 268435456;
      if free <= 0 then share == 0
      else (share * workers) as real <= safety * free as real < ((share + 1) * workers) as real
  {
    var total := TotalWorkspace(availableBytes, workers, modelRss);
    LeftOver(availableBytes, workers, modelRss);
    hide TotalWorkspace;
    if total == 0 {
      NothingToShare(total, safety, workers);
    } else {
      LargestShare(total, safety, workers);
    }
  }

  lemma LeftOver(availableBytes: usize, workers: usize, modelRss: usize)
    ensures var free := availableBytes - workers * modelRss - 268435456;
      TotalWorkspace(availableBytes, workers, modelRss) == if free <= 0 then 0 else free
  {
    var models := workers * modelRss;
    assert SaturatingMul(workers, modelRss) == Min(models, USIZE_MAX);
    hide SaturatingMul, SaturatingSub, Min;
    LeftOf(availableBytes, models);
  }

  lemma LeftOf(availableBytes: usize, models: nat)
    ensures var free := availableBytes - models - 268435456;
      SaturatingSub(SaturatingSub(availableBytes, Min(models, USIZE_MAX)), OS_HEADROOM_BYTES) == if free <= 0 then 0 else free
  {}

  lemma LargestShare(total: usize, safety: real, n: usize)
    requires n >= 1 && 0.0 <= safety <= 1.0
    ensures var w := PerWorkerWorkspace(total, n, safety);
      (w * n) as real <= safety * total as real < ((w + 1) * n) as real
  {
    var x := total as real * safety;
    var q := x / n as real;
    assert x == Times(total as real, safety);
    assert Times(q, n as real) == x;
    SafePart(total as real, safety);
    Quotient(q, n as real);
    hide Times;
    assert 0.0 <= q <= USIZE_MAX as real;
    TruncatedShare(q, CastUsize(q), n);
  }

  lemma TruncatedShare(q: real, w: usize, n: usize)
    requires n >= 1 && w as real <= q < w as real + 1.0
    ensures (w * n) as real <= Times(q, n as real) < ((w + 1) * n) as real
  {
    hide Times;
    TimesNat(w, n);
    TimesNat(w + 1, n);
    TimesOrdered(w as real, q, n as real);
    TimesStrict(q, (w + 1) as real, n as real);
  }

  lemma SafePart(total: real, safety: real)
    requires total >= 0.0 && 0.0 <= safety <= 1.0
    ensures 0.0 <= Times(total, safety) <= total
  {
    TimesOrdered(0.0, safety, total);
    TimesOrdered(safety, 1.0, total);
    TimesCommutes(total, safety);
    assert Times(0.0, total) == 0.0 && Times(1.0, total) == total;
    hide Times;
  }

  lemma Quotient(q: real, n: real)
    requires Times(q, n) >= 0.0 && n >= 1.0
    ensures 0.0 <= q <= Times(q, n)
  {
    assert Times(0.0, n) == 0.0 && Times(1.0, q) == q;
    if q < 0.0 {
      TimesStrict(q, 0.0, n);
    } else {
      TimesOrdered(1.0, n, q);
      TimesCommutes(n, q);
    }
    hide Times;
  }

  /** The peak reported is all shares, models and headroom together, saturated; the utilisation is its
      percentage of what is available. */
  lemma PeakIsReported(availableBytes: usize, workers: usize, modelRss: usize, safety: real)
    ensures var budget := ComputeWorkspaceBudget(availableBytes, workers, modelRss, safety);
      && budget.worstCasePeak == Min(workers * budget.perWorkerWorkspace + workers * modelRss + 268435456, USIZE_MAX)
      && (availableBytes > 0 ==> budget.utilizationPct * availableBytes as real == 100.0 * budget.worstCasePeak as real)
      && (availableBytes == 0 ==> budget.utilizationPct == 0.0)
  {
    var budget := ComputeWorkspaceBudget(availableBytes, workers, modelRss, safety);
    SaturatedSum(workers * budget.perWorkerWorkspace, workers * modelRss);
    hide PerWorkerWorkspace, SaturatingAdd;
    if availableBytes > 0 {
      Percentage(budget.worstCasePeak as real, availableBytes as real);
    }
  }

  lemma SaturatedSum(x: nat, y: nat)
    ensures SaturatingAdd(SaturatingAdd(Min(x, USIZE_MAX), Min(y, USIZE_MAX)), OS_HEADROOM_BYTES) ==
      Min(x + y + 268435456, USIZE_MAX)
  {}

  lemma Percentage(x: real, m: real)
    requires m > 0.0
    ensures x / m * 100.0 * m == 100.0 * x
  {
    assert x / m * m == x;
  }

  lemma TotalIsExact(availableBytes: usize, workers: usize, modelRss: usize)
    requires TotalWorkspace(availableBytes, workers, modelRss) > 0
    ensures TotalWorkspace(availableBytes, workers, modelRss) + workers * modelRss + OS_HEADROOM_BYTES == availableBytes
  {}

  lemma PeakIsExact(workers: usize, perWorker: usize, modelRss: usize, availableBytes: usize)
    requires workers * perWorker + workers * modelRss + OS_HEADROOM_BYTES <= availableBytes
    ensures WorstCasePeak(workers, perWorker, modelRss) == workers * perWorker + workers * modelRss + OS_HEADROOM_BYTES
  {
    assert workers * perWorker >= 0 && workers * modelRss >= 0;
  }

  /** The floor is passed, for one, by two workers with 2 GiB models on an 8 GiB host. */
  lemma FloorPassesOnRealHost()
    ensures FloorPasses(ComputeWorkspaceBudget(0x2_0000_0000, 2, 0x8000_0000, 0.8), MODEL_MAX_SEQ)
  {
    FloorAtMaximum();
    var total := TotalWorkspace(0x2_0000_0000, 2, 0x8000_0000);
    assert total == 4026531840;
    assert 4026531840.0 * 0.8 == 3221225472.0;
    assert 3221225472.0 / 2.0 == 1610612736.0;
    assert CastUsize(1610612736.0) == 1610612736;
  }

  /** A host on which the floor check passes: 4 GiB, one worker, a 2 GiB model, no safety margin. */
  function SmallHost(): WorkspaceBudget { ComputeWorkspaceBudget(0x1_0000_0000, 1, 0x8000_0000, 1.0) }

  lemma SmallHostBudget()
    ensures SmallHost().perWorkerWorkspace == 1879048192 && FloorPasses(SmallHost(), MODEL_MAX_SEQ)
  {
    FloorAtMaximum();
    assert TotalWorkspace(0x1_0000_0000, 1, 0x8000_0000) == 1879048192;
    assert 1879048192.0 * 1.0 == 1879048192.0;
    assert 1879048192.0 / 1.0 == 1879048192.0;
    assert CastUsize(1879048192.0) == 1879048192;
  }

  lemma FloorAtMaximum()
    ensures PhysicsFloor(MODEL_MAX_SEQ) == 671088640
  {
    FloorIsExact(MODEL_MAX_SEQ);
    assert 16384.0 * 8192 as real == 134217728.0;
    assert 8.0 * 8192 as real == 65536.0;
    assert 65536.0 * 8192 as real == 536870912.0;
  }
}
