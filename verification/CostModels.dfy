/** The quadratic-aware workspace cost model of one `session.run()` call (src/binpack.rs). */
module CostModels {
  import opened Numbers

  const CONSERVATIVE_A := 16384.0
  const CONSERVATIVE_B := 8.0

  /** The cast `x as u128`: negative values become 0, fractions are dropped, large values saturate. */
  function CastU128(x: real): nat {
    if x <= 0.0 then 0 else if x >= U128_MAX as real then U128_MAX else x.Floor
  }

  datatype CostModel = CostModel(a: real, b: real, maxWorkspaceBytes: nat) {

    /** Bytes that scale with token positions. */
    function LinearBytes(n: nat): nat { CastU128(a * n as real) }

    /** Bytes of the attention score matrices. */
    function QuadraticBytes(n: nat, maxSeq: nat): nat { CastU128(b * n as real * maxSeq as real) }

    /** Saturating estimate of the peak workspace of `count` texts padded to `maxSeq` tokens. */
    function ChunkCost(count: nat, maxSeq: nat): nat {
      Min(LinearBytes(count * maxSeq) + QuadraticBytes(count * maxSeq, maxSeq), U128_MAX)
    }

    predicate Fits(count: nat, maxSeq: nat) {
      ChunkCost(count, maxSeq) <= maxWorkspaceBytes
    }
  }

  function Conservative(maxWorkspaceBytes: nat): CostModel {
    CostModel(CONSERVATIVE_A, CONSERVATIVE_B, maxWorkspaceBytes)
  }

  // ---- What the estimate is ----

  function Positive(x: real): real { if x < 0.0 then 0.0 else x }

  /** n is x with its fraction dropped, from 0 up to the limit of the width. */
  predicate Truncates(n: nat, x: real) {
    && (x <= 0.0 ==> n == 0)
    && (0.0 <= x < U128_MAX as real ==> n as real <= x < n as real + 1.0)
    && (x >= U128_MAX as real ==> n == U128_MAX)
  }

  /** The two terms of the polynomial behind the estimate, for n positions. */
  function LinearTerm(cm: CostModel, n: nat): real { cm.a * n as real }

  function QuadraticTerm(cm: CostModel, n: nat, maxSeq: nat): real { cm.b * n as real * maxSeq as real }

  /** For every pair of coefficients each term is truncated by itself. */
  lemma TermsTruncate(cm: CostModel, n: nat, maxSeq: nat)
    ensures Truncates(cm.LinearBytes(n), LinearTerm(cm, n))
    ensures Truncates(cm.QuadraticBytes(n, maxSeq), QuadraticTerm(cm, n, maxSeq))
  {}

  /** The estimate is never more than the polynomial, negative terms counting as nothing, and less than
      two bytes less unless the width is exhausted. */
  lemma CostWithinTwoBytes(cm: CostModel, count: nat, maxSeq: nat)
    ensures var n, cost := count * maxSeq, cm.ChunkCost(count, maxSeq);
      var exact := Positive(LinearTerm(cm, n)) + Positive(QuadraticTerm(cm, n, maxSeq));
      cost as real <= exact && (cost < U128_MAX ==> exact < cost as real + 2.0)
  {
    hide LinearTerm, QuadraticTerm, Truncates, Positive, CostModel.LinearBytes, CostModel.QuadraticBytes;
    var n := count * maxSeq;
    TermsTruncate(cm, n, maxSeq);
    TruncatedSum(LinearTerm(cm, n), QuadraticTerm(cm, n, maxSeq), cm.LinearBytes(n), cm.QuadraticBytes(n, maxSeq));
  }

  lemma TruncatedSum(x: real, y: real, m: nat, n: nat)
    requires Truncates(m, x) && Truncates(n, y)
    ensures Min(m + n, U128_MAX) as real <= Positive(x) + Positive(y)
    ensures Min(m + n, U128_MAX) < U128_MAX ==> Positive(x) + Positive(y) < Min(m + n, U128_MAX) as real + 2.0
  {}

  /** What n token positions in texts padded to `maxSeq` cost conservatively. */
  function PositionBytes(n: nat, maxSeq: nat): nat { 16384 * n + 8 * (n * maxSeq) }

  /** With the conservative coefficients the estimate is exact, until it saturates. */
  lemma ConservativeCost(workspace: nat, count: nat, maxSeq: nat)
    ensures Conservative(workspace).ChunkCost(count, maxSeq) == Min(PositionBytes(count * maxSeq, maxSeq), U128_MAX)
  {
    var n := count * maxSeq;
    assert 16384.0 * n as real == (16384 * n) as real;
    assert 8.0 * n as real * maxSeq as real == (8 * (n * maxSeq)) as real by {
      assert (n * maxSeq) as real == n as real * maxSeq as real;
    }
    CastNat(16384 * n);
    CastNat(8 * (n * maxSeq));
    hide CastU128;
  }

  lemma CastNat(n: nat)
    ensures CastU128(n as real) == Min(n, U128_MAX)
  {}

  lemma NatProductMonotone(c: nat, s: nat, c': nat, s': nat)
    requires c <= c' && s <= s'
    ensures c * s <= c' * s'
  {
    assert c * s <= c' * s by { assert (c' - c) * s >= 0; }
    assert c' * s <= c' * s' by { assert c' * (s' - s) >= 0; }
  }

  lemma RealProductMonotone(k: real, x: real, k': real, x': real)
    requires 0.0 <= x <= x' && k <= k'
    ensures k <= 0.0 ==> k * x <= 0.0
    ensures 0.0 <= k ==> 0.0 <= k * x <= k' * x'
  {
    if 0.0 <= k {
      assert k * x <= k' * x by { assert (k' - k) * x >= 0.0; }
      assert k' * x <= k' * x' by { assert k' * (x' - x) >= 0.0; }
    }
  }

  lemma LinearMonotone(cm: CostModel, n: nat, cm': CostModel, n': nat)
    requires n <= n' && cm.a <= cm'.a
    ensures cm.LinearBytes(n) <= cm'.LinearBytes(n')
  {
    RealProductMonotone(cm.a, n as real, cm'.a, n' as real);
  }

  lemma QuadraticMonotone(cm: CostModel, n: nat, s: nat, cm': CostModel, n': nat, s': nat)
    requires n <= n' && s <= s' && cm.b <= cm'.b
    ensures cm.QuadraticBytes(n, s) <= cm'.QuadraticBytes(n', s')
  {
    RealProductMonotone(cm.b, n as real, cm'.b, n' as real);
    var p, p' := cm.b * n as real, cm'.b * n' as real;
    if p <= 0.0 {
      RealProductMonotone(p, s as real, p, s as real);
    } else {
      assert 0.0 < cm.b;
      RealProductMonotone(p, s as real, p', s' as real);
    }
  }

  /**
   * Cost never falls when a chunk gains texts, gets longer or its coefficients rise. It holds for
   * every pair of coefficients, negative ones included, because the cast sends those terms to 0.
   */
  lemma ChunkCostMonotone(cm: CostModel, count: nat, maxSeq: nat, cm': CostModel, count': nat, maxSeq': nat)
    requires count <= count' && maxSeq <= maxSeq'
    requires cm.a <= cm'.a && cm.b <= cm'.b
    ensures cm.ChunkCost(count, maxSeq) <= cm'.ChunkCost(count', maxSeq')
  {
    NatProductMonotone(count, maxSeq, count', maxSeq');
    LinearMonotone(cm, count * maxSeq, cm', count' * maxSeq');
    QuadraticMonotone(cm, count * maxSeq, maxSeq, cm', count' * maxSeq', maxSeq');
  }

  lemma FitsMonotone(cm: CostModel, count: nat, maxSeq: nat, count': nat, maxSeq': nat)
    requires count <= count' && maxSeq <= maxSeq'
    requires cm.Fits(count', maxSeq')
    ensures cm.Fits(count, maxSeq)
  {
    ChunkCostMonotone(cm, count, maxSeq, cm, count', maxSeq');
  }

  /** Whatever fits `tight` fits `loose`. */
  ghost predicate Looser(tight: CostModel, loose: CostModel) {
    forall count: nat, maxSeq: nat :: tight.Fits(count, maxSeq) ==> loose.Fits(count, maxSeq)
  }

  lemma LooserModel(tight: CostModel, loose: CostModel)
    requires loose.a <= tight.a && loose.b <= tight.b
    requires tight.maxWorkspaceBytes <= loose.maxWorkspaceBytes
    ensures Looser(tight, loose)
  {
    forall count: nat, maxSeq: nat | tight.Fits(count, maxSeq) ensures loose.Fits(count, maxSeq) {
      ChunkCostMonotone(loose, count, maxSeq, tight, count, maxSeq);
    }
  }
}
