/** Configured cost models, which replace the fitted one and bring a budget of their own
    (src/config.rs), and what the pool's memory then depends on. */
module CostOverrides {
  import opened Numbers
  import opened Outcomes
  import opened CostModels
  import opened Budget
  import opened PoolMemory

  const DEFAULT_MAX_WORKSPACE: usize := 2 * 1024 * 1024 * 1024

  /** What the configuration says about cost models; `coefficients` when both of them parse. */
  datatype Settings = Settings(
    gpu: bool,
    vramBudget: usize,
    disableAutoBudget: bool,
    tokenBudget: Option<usize>,
    coefficients: Option<(real, real)>,
    availableMemory: Option<usize>)

  function Override(s: Settings, maxSeq: nat): Option<CostModel> {
    var workspace := if s.availableMemory.Some? then s.availableMemory.value else DEFAULT_MAX_WORKSPACE;
    if s.gpu then Some(Conservative(s.vramBudget))
    else if s.disableAutoBudget then Some(Conservative(workspace))
    else if s.tokenBudget.Some? then
      Some(Conservative(CastUsize(s.tokenBudget.value as real * (CONSERVATIVE_A + CONSERVATIVE_B * maxSeq as real))))
    else if s.coefficients.Some? then Some(CostModel(s.coefficients.value.0, s.coefficients.value.1, workspace))
    else None
  }

  /** The cost model requests are packed with: the configured one, or the given coefficients (cached
      or probed) with the computed budget. The floor check sees the computed budget either way. */
  function InForce(s: Settings, host: Host, limits: Limits, safety: real, a: real, b: real): CostModel {
    match Override(s, limits.maxSeq)
    case Some(cm) => cm
    case None => CostModel(a, b, host.Share(safety))
  }

  /** Who decides: a GPU before everything, then the switch, the token budget, the two coefficients, and
      only with none of them the fit. A memory size set explicitly replaces the 2 GiB, never a VRAM or
      token budget. */
  lemma Precedence(s: Settings, host: Host, limits: Limits, safety: real, a: real, b: real)
    ensures var cm := InForce(s, host, limits, safety, a, b);
      var workspace := if s.availableMemory.Some? then s.availableMemory.value else 0x8000_0000;
      && (s.gpu ==> cm == CostModel(16384.0, 8.0, s.vramBudget))
      && (!s.gpu && s.disableAutoBudget ==> cm == CostModel(16384.0, 8.0, workspace))
      && (!s.gpu && !s.disableAutoBudget && s.tokenBudget.Some? ==> (cm.a, cm.b) == (16384.0, 8.0))
      && (!s.gpu && !s.disableAutoBudget && s.tokenBudget.None? && s.coefficients.Some? ==>
            (cm.a, cm.b) == s.coefficients.value && cm.maxWorkspaceBytes == workspace)
      && (!s.gpu && !s.disableAutoBudget && s.tokenBudget.None? && s.coefficients.None? ==>
            cm == CostModel(a, b, host.Share(safety)))
  {
    hide Host.Share;
  }

  /** Whichever model is in force, these are exactly the hosts it is safe on. */
  lemma ServiceFitsIff(s: Settings, host: Host, limits: Limits, safety: real, a: real, b: real)
    requires host.workers >= 1 && safety <= 1.0 && limits.maxBatch >= 1
    ensures var cm := InForce(s, host, limits, safety, a, b);
      PoolAlwaysFits(host, limits, {cm}) <==>
        if Override(s, limits.maxSeq).Some? then EveryShapeFits(host, limits, {cm})
        else host.HoldsEach(cm.ChunkCost(1, limits.maxSeq))
  {
    FitsIffShapesDo(host, limits, {InForce(s, host, limits, safety, a, b)});
    PoolFitsIff(host, limits, safety, a, b);
    hide PoolAlwaysFits, EveryShapeFits, CostModel.ChunkCost, Override;
  }

  /** With the documented 2 GiB default the budget must fit once for every worker; the floor check
      never compares it with the memory there is. */
  lemma DefaultOverrideFitsIff(s: Settings, host: Host, limits: Limits, safety: real, a: real, b: real)
    requires !s.gpu && s.disableAutoBudget && s.availableMemory.None?
    requires limits.maxBatch >= 32 && 2048 <= limits.maxSeq <= MODEL_MAX_SEQ
    ensures PoolAlwaysFits(host, limits, {InForce(s, host, limits, safety, a, b)}) <==>
      host.HoldsEach(DEFAULT_MAX_WORKSPACE)
  {
    var cm := InForce(s, host, limits, safety, a, b);
    assert cm == Conservative(DEFAULT_MAX_WORKSPACE);
    SpentByDefault();
    ChunkCostMonotone(cm, 1, limits.maxSeq, cm, 1, MODEL_MAX_SEQ);
    hide CostModel.ChunkCost, PoolAlwaysFits, InForce;
    SpentBudgetFitsIff(host, limits, cm, 32, 2048);
  }

  /** 32 texts of 2048 tokens use up 2 GiB, one of 8192 tokens does not. */
  lemma SpentByDefault()
    ensures Conservative(DEFAULT_MAX_WORKSPACE).ChunkCost(32, 2048) == DEFAULT_MAX_WORKSPACE
    ensures Conservative(DEFAULT_MAX_WORKSPACE).ChunkCost(1, MODEL_MAX_SEQ) <= DEFAULT_MAX_WORKSPACE
  {
    assert 16384.0 * 65536 as real == 1073741824.0;
    assert 8.0 * 65536 as real == 524288.0;
    assert 524288.0 * 2048 as real == 1073741824.0;
    assert 16384.0 * 8192 as real == 134217728.0;
    assert 8.0 * 8192 as real == 65536.0;
    assert 65536.0 * 8192 as real == 536870912.0;
  }

  /** So the floor check does not keep a pool with a configured model within memory, conservative
      coefficients or not: two workers on an 8 GiB host pass it and outgrow the host. */
  lemma OverrideOutgrowsHost(s: Settings, limits: Limits, a: real, b: real)
    requires !s.gpu && s.disableAutoBudget && s.availableMemory.None?
    requires limits.maxBatch >= 32 && 2048 <= limits.maxSeq <= MODEL_MAX_SEQ
    ensures FloorPasses(ComputeWorkspaceBudget(0x2_0000_0000, 2, 0x8000_0000, 0.8), MODEL_MAX_SEQ)
    ensures var host := Host(0x2_0000_0000, 2, 0x8000_0000);
      !PoolAlwaysFits(host, limits, {InForce(s, host, limits, 0.8, a, b)})
  {
    FloorPassesOnRealHost();
    hide FloorPasses, ComputeWorkspaceBudget, PoolAlwaysFits;
    DefaultOverrideFitsIff(s, Host(0x2_0000_0000, 2, 0x8000_0000), limits, 0.8, a, b);
  }

  /** A token budget of k longest texts, unless it overflows the cast, likewise. */
  lemma TokenBudgetFitsIff(s: Settings, host: Host, limits: Limits, safety: real, a: real, b: real, k: nat)
    requires !s.gpu && !s.disableAutoBudget && s.tokenBudget == Some(k * limits.maxSeq)
    requires 1 <= k <= limits.maxBatch && limits.maxSeq >= 1
    requires PositionBytes(k * limits.maxSeq, limits.maxSeq) < USIZE_MAX
    ensures PoolAlwaysFits(host, limits, {InForce(s, host, limits, safety, a, b)}) <==>
      host.HoldsEach(PositionBytes(k * limits.maxSeq, limits.maxSeq))
  {
    var bytes := PositionBytes(k * limits.maxSeq, limits.maxSeq);
    var cm := Conservative(bytes);
    TokensAreBytes(k * limits.maxSeq, limits.maxSeq);
    assert InForce(s, host, limits, safety, a, b) == cm;
    ConservativeCost(bytes, k, limits.maxSeq);
    ChunkCostMonotone(cm, 1, limits.maxSeq, cm, k, limits.maxSeq);
    hide CostModel.ChunkCost, PoolAlwaysFits, InForce;
    SpentBudgetFitsIff(host, limits, cm, k, limits.maxSeq);
  }

  lemma TokensAreBytes(tokens: nat, maxSeq: nat)
    requires PositionBytes(tokens, maxSeq) < USIZE_MAX
    ensures CastUsize(tokens as real * (CONSERVATIVE_A + CONSERVATIVE_B * maxSeq as real)) == PositionBytes(tokens, maxSeq)
  {
    assert (tokens * maxSeq) as real == tokens as real * maxSeq as real;
    assert tokens as real * (16384.0 + 8.0 * maxSeq as real) == PositionBytes(tokens, maxSeq) as real;
  }

  /** An explicit memory size becomes every worker's own budget as well as the host's memory. With
      two workers or more it protects nothing: the pool is safe exactly when the packer could have
      run the largest request in one chunk on every worker. */
  lemma ExplicitMemoryFitsIff(s: Settings, host: Host, limits: Limits, safety: real, a: real, b: real)
    requires !s.gpu && s.disableAutoBudget && s.availableMemory == Some(host.availableBytes)
    requires host.workers >= 2 && limits.maxBatch >= 1
    ensures var cm := InForce(s, host, limits, safety, a, b);
      PoolAlwaysFits(host, limits, {cm}) <==> host.HoldsEach(cm.ChunkCost(limits.maxBatch, limits.maxSeq))
  {
    var cm := Conservative(host.availableBytes);
    FitsIffShapesDo(host, limits, {cm});
    hide PoolAlwaysFits;
    if host.HoldsEach(cm.ChunkCost(limits.maxBatch, limits.maxSeq)) {
      LargestDecides(host, limits, cm);
    } else if EveryShapeFits(host, limits, {cm}) {
      UncutRequestFits(host, limits);
    }
  }

  lemma LargestDecides(host: Host, limits: Limits, cm: CostModel)
    requires host.HoldsEach(cm.ChunkCost(limits.maxBatch, limits.maxSeq))
    ensures EveryShapeFits(host, limits, {cm})
  {
    hide Host.HoldsEach;
    forall count: nat, seqLen: nat | Runnable(limits, cm, count, seqLen) ensures host.HoldsEach(cm.ChunkCost(count, seqLen)) {
      ChunkCostMonotone(cm, count, seqLen, cm, limits.maxBatch, limits.maxSeq);
      hide CostModel.ChunkCost;
      Within(host, cm.ChunkCost(count, seqLen), cm.ChunkCost(limits.maxBatch, limits.maxSeq));
    }
  }

  lemma UncutRequestFits(host: Host, limits: Limits)
    requires host.workers >= 2 && limits.maxBatch >= 1
    requires EveryShapeFits(host, limits, {Conservative(host.availableBytes)})
    ensures host.HoldsEach(Conservative(host.availableBytes).ChunkCost(limits.maxBatch, limits.maxSeq))
  {
    var cm, top := Conservative(host.availableBytes), limits.maxSeq;
    hide CostModel.ChunkCost;
    if cm.Fits(limits.maxBatch, top) {
      assert Runnable(limits, cm, limits.maxBatch, top);
    } else {
      var c := MostFitting(cm, limits.maxBatch, top);
      var run := Max(c, 1);
      assert Runnable(limits, cm, run, top) && host.HoldsEach(cm.ChunkCost(run, top));
      OneMoreText(host.availableBytes, c, top);
      TwiceAtLeast(host.workers, cm.ChunkCost(run, top));
      assert false;
    }
  }

  lemma TwiceAtLeast(n: nat, x: nat)
    requires n >= 2
    ensures n * x >= 2 * x
  {}

  /** A chunk that just fits doubles past the budget. */
  lemma OneMoreText(workspace: usize, c: nat, s: nat)
    requires !Conservative(workspace).Fits(c + 1, s)
    ensures 2 * Conservative(workspace).ChunkCost(Max(c, 1), s) > workspace
  {
    var cm := Conservative(workspace);
    ConservativeCost(workspace, c + 1, s);
    ConservativeCost(workspace, Max(c, 1), s);
    hide CostModel.ChunkCost, PositionBytes;
    OneMoreRow(c, s);
    Doubled(Max(c, 1) * s, (c + 1) * s, s);
  }

  lemma OneMoreRow(c: nat, s: nat)
    ensures (c + 1) * s <= 2 * (Max(c, 1) * s)
  {
    NatProductMonotone(c + 1, s, 2 * Max(c, 1), s);
    assert 2 * Max(c, 1) * s == 2 * (Max(c, 1) * s);
  }

  lemma Doubled(n: nat, n': nat, s: nat)
    requires n' <= 2 * n
    ensures PositionBytes(n', s) <= 2 * PositionBytes(n, s)
  {
    NatProductMonotone(n', s, 2 * n, s);
    assert 2 * n * s == 2 * (n * s);
  }

  lemma {:induction false} MostFitting(cm: CostModel, n: nat, s: nat) returns (c: nat)
    requires n >= 1 && !cm.Fits(n, s)
    ensures c < n && !cm.Fits(c + 1, s) && (c == 0 || cm.Fits(c, s))
  {
    hide CostModel.Fits;
    c := n - 1;
    if c > 0 && !cm.Fits(c, s) {
      c := MostFitting(cm, c, s);
    }
  }
}
