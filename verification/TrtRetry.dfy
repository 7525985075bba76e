/** The single retry after a TensorRT JIT out-of-memory (src/embedder/worker/trt_retry.rs). */
module TrtRetry {
  import opened Numbers
  import opened CostModels
  import opened Outcomes
  import opened BinPacking
  import opened PackingLaws

  const MIB: nat := 1024 * 1024

  /** The retry's budget is half the base budget, but at least 1 MiB. */
  function Halved(cm: CostModel): CostModel {
    cm.(maxWorkspaceBytes := Max(cm.maxWorkspaceBytes / 2, MIB))
  }

  /** The final result, and the cost models the embed function was called with, in order. */
  datatype Attempts<T, E> = Attempts(result: Result<T, E>, calls: seq<CostModel>)

  /** `embed(k, cm)` is the outcome of the k-th call; `isJitOom` stands for the error-text match. */
  function EmbedWithTrtRetry<T, E>(embed: (nat, CostModel) -> Result<T, E>, isJitOom: E -> bool, base: CostModel)
    : Attempts<T, E>
  {
    match embed(0, base)
    case Ok(v) => Attempts(Ok(v), [base])
    case Err(e) =>
      if isJitOom(e) then Attempts(embed(1, Halved(base)), [base, Halved(base)])
      else Attempts(Err(e), [base])
  }

  /** At most two calls; a second one only after a JIT out-of-memory; the last call's result stands. */
  lemma AtMostTwoCalls<T, E>(embed: (nat, CostModel) -> Result<T, E>, isJitOom: E -> bool, base: CostModel)
    ensures var r := EmbedWithTrtRetry(embed, isJitOom, base);
      && 1 <= |r.calls| <= 2 && r.calls[0] == base
      && r.result == embed(|r.calls| - 1, r.calls[|r.calls| - 1])
      && (|r.calls| == 2 <==> embed(0, base).Err? && isJitOom(embed(0, base).error))
      && (|r.calls| == 2 ==> r.calls[1].a == base.a && r.calls[1].b == base.b)
  {}

  /** From 2 MiB up the retry has half the base budget, rounded down; below that it has 1 MiB. */
  lemma RetryHalves(base: CostModel)
    ensures var retry := Halved(base);
      && (base.maxWorkspaceBytes >= 2097152 ==> 2 * retry.maxWorkspaceBytes <= base.maxWorkspaceBytes < 2 * retry.maxWorkspaceBytes + 2)
      && (base.maxWorkspaceBytes < 2097152 ==> retry.maxWorkspaceBytes == 1048576)
      && forall count: nat, maxSeq: nat :: retry.ChunkCost(count, maxSeq) == base.ChunkCost(count, maxSeq)
  {
    forall count: nat, maxSeq: nat ensures Halved(base).ChunkCost(count, maxSeq) == base.ChunkCost(count, maxSeq) {
      ChunkCostMonotone(base, count, maxSeq, Halved(base), count, maxSeq);
      ChunkCostMonotone(Halved(base), count, maxSeq, base, count, maxSeq);
    }
    hide CostModel.ChunkCost;
  }

  /** The retry budget stays within the base budget exactly when that is at least 1 MiB. */
  lemma RetryBudgetWithinBase(base: CostModel)
    ensures Halved(base).maxWorkspaceBytes <= base.maxWorkspaceBytes <==> base.maxWorkspaceBytes >= MIB
  {}

  /** From 1 MiB up, the retry packs at least as many chunks, all admissible under the base budget. */
  lemma RetryPacksFiner(base: CostModel, lens: seq<nat>, chunks: seq<seq<nat>>, retried: seq<seq<nat>>)
    requires base.maxWorkspaceBytes >= MIB
    requires IsPacking(chunks, lens, base) && IsPacking(retried, lens, Halved(base))
    ensures |chunks| <= |retried|
    ensures forall c :: 0 <= c < |retried| ==> InRange(retried[c], |lens|) && Admissible(retried[c], lens, base)
  {
    hide CostModel.Fits, IsPacking;
    LooserModel(Halved(base), base);
    LooserNeedsNoMore(Halved(base), base, lens, retried, chunks);
    forall c | 0 <= c < |retried| ensures InRange(retried[c], |lens|) && Admissible(retried[c], lens, base) {
      AdmissibleUnderLooser(Halved(base), base, lens, retried, c);
    }
  }

  /** Below 1 MiB the "halved" retry can run a chunk the base budget forbids, with the conservative
      coefficients a TensorRT worker always has. */
  lemma TinyBudgetGrows()
    ensures var base := Conservative(600000);
      && Halved(base).Fits(2, 20) && !base.Fits(2, 20)
      && Halved(base).maxWorkspaceBytes > base.maxWorkspaceBytes
  {
    assert 16384.0 * 40 as real == 655360.0;
    assert 8.0 * 40 as real == 320.0;
    assert 320.0 * 20 as real == 6400.0;
  }
}
