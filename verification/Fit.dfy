/** The startup probe's cost-model fit (src/probe/fit.rs). */
module Fit {
  import opened Numbers
  import opened Outcomes
  import opened LeastSquares

  datatype DataPoint = DataPoint(batch: nat, seqLen: nat, rssDelta: nat)

  const A_MIN := 4096.0
  const A_MAX := 262144.0
  const B_MIN := 0.01
  const B_MAX := 50000.0

  function X1(dp: DataPoint): real { (dp.batch * dp.seqLen) as real }

  function X2(dp: DataPoint): real { (dp.batch * dp.seqLen * dp.seqLen) as real }

  function Clamp(x: real, lo: real, hi: real): real {
    if x < lo then lo else if x > hi then hi else x
  }

  /** The measured peak against the unscaled columns. */
  function Raw(dp: DataPoint): Obs { Obs(X1(dp), X2(dp), dp.rssDelta as real) }

  function RawObs(data: seq<DataPoint>): (obs: seq<Obs>) {
    seq(|data|, i requires 0 <= i < |data| => Raw(data[i]))
  }

  function MaxX1(data: seq<DataPoint>): real {
    if data == [] then 0.0 else MaxReal(MaxX1(data[..|data| - 1]), X1(data[|data| - 1]))
  }

  function MaxX2(data: seq<DataPoint>): real {
    if data == [] then 0.0 else MaxReal(MaxX2(data[..|data| - 1]), X2(data[|data| - 1]))
  }

  /** The columns scaled by their maxima. */
  function Scaled(dp: DataPoint, m1: real, m2: real): Obs
    requires m1 != 0.0 && m2 != 0.0
  {
    Obs(X1(dp) / m1, X2(dp) / m2, dp.rssDelta as real)
  }

  function ScaledObs(data: seq<DataPoint>, m1: real, m2: real): (obs: seq<Obs>)
    requires m1 != 0.0 && m2 != 0.0
  {
    seq(|data|, i requires 0 <= i < |data| => Scaled(data[i], m1, m2))
  }

  /** The determinant test of the scaled Gram matrix. */
  predicate NearSingular(s: Sums) {
    AbsReal(s.Det()) < 0.000001 * Square(MaxReal(s.uu, s.vv))
  }

  /** The sums of any observations are singular to the fit exactly when their determinant is below a
      millionth of the square of one diagonal entry or the other. */
  lemma NearSingularIff(obs: seq<Obs>)
    ensures var s := SumsOf(obs);
      NearSingular(s) <==> s.Det() < 0.000001 * (s.uu * s.uu) || s.Det() < 0.000001 * (s.vv * s.vv)
  {
    var s := SumsOf(obs);
    DeterminantNonNegative(obs);
    EnergyForm(obs, 1.0, 0.0);
    EnergyForm(obs, 0.0, 1.0);
    Diagonal(s);
    hide SumsOf, Sums.Det, Gram;
    if s.uu <= s.vv {
      SquaresOrdered(s.uu, s.vv);
    } else {
      SquaresOrdered(s.vv, s.uu);
    }
  }

  lemma Diagonal(s: Sums)
    ensures Gram(s, 1.0, 0.0) == s.uu && Gram(s, 0.0, 1.0) == s.vv
  {
    assert 1.0 * 1.0 * s.uu == s.uu && 1.0 * 1.0 * s.vv == s.vv;
    assert 0.0 * 0.0 * s.uu == 0.0 && 0.0 * 0.0 * s.vv == 0.0 && 1.0 * 0.0 * s.uv == 0.0 && 0.0 * 1.0 * s.uv == 0.0;
  }

  /** What makes the fit give up before solving. */
  predicate Degenerate(data: seq<DataPoint>) {
    || |data| < 2
    || MaxX1(data) == 0.0
    || MaxX2(data) == 0.0
    || NearSingular(SumsOf(ScaledObs(data, MaxX1(data), MaxX2(data))))
  }

  /** The plane a N + b N^2 fits the measurements no worse than any other. */
  ghost predicate IsLeastSquares(data: seq<DataPoint>, a: real, b: real) {
    && SolvesNormal(SumsOf(RawObs(data)), a, b)
    && forall a': real, b': real :: Sse(RawObs(data), a, b) <= Sse(RawObs(data), a', b')
  }

  /** The coefficients returned for an unclamped plane. */
  function Clamped(a: real, b: real): (real, real) {
    (Clamp(MaxReal(a, 0.0), A_MIN, A_MAX), Clamp(b, B_MIN, B_MAX))
  }

  /** A falling quadratic term means the measurements are unusable. */
  function FitOf(a: real, b: real): Option<(real, real)> {
    if b < 0.0 then None else Some(Clamped(a, b))
  }

  /** The result comes from a least-squares plane, floored and clamped. */
  ghost predicate IsFit(data: seq<DataPoint>, r: Option<(real, real)>) {
    exists a: real, b: real :: IsLeastSquares(data, a, b) && r == FitOf(a, b)
  }

  method FitCostModel(data: seq<DataPoint>) returns (r: Option<(real, real)>)
    ensures Degenerate(data) ==> r.None?
    ensures !Degenerate(data) ==> IsFit(data, r)
  {
    hide SumsOf, MaxX1, MaxX2, Square, IsLeastSquares, IsFit;
    if |data| < 2 {
      return None;
    }
    var x1Max, x2Max := ColumnMaxima(data);
    if x1Max == 0.0 || x2Max == 0.0 {
      return None;
    }
    var g := Accumulate(data, x1Max, x2Max);
    if AbsReal(g.Det()) < 0.000001 * Square(MaxReal(g.uu, g.vv)) {
      return None;
    }
    UnscaledIsLeast(data);
    var alpha, beta := CramerU(g), CramerV(g);
    var aRaw, bRaw := alpha / x1Max, beta / x2Max;
    FitFrom(data, aRaw, bRaw);
    if bRaw < 0.0 {
      return None;
    }
    r := Some(Clamped(aRaw, bRaw));
  }

  method ColumnMaxima(data: seq<DataPoint>) returns (x1Max: real, x2Max: real)
    ensures x1Max == MaxX1(data) && x2Max == MaxX2(data)
  {
    x1Max, x2Max := 0.0, 0.0;
    for i := 0 to |data|
      invariant x1Max == MaxX1(data[..i]) && x2Max == MaxX2(data[..i])
    {
      assert data[..i + 1][..i] == data[..i];
      x1Max := MaxReal(x1Max, X1(data[i]));
      x2Max := MaxReal(x2Max, X2(data[i]));
    }
    assert data[..|data|] == data;
  }

  /** The Gram matrix and right-hand side of the scaled system. */
  method Accumulate(data: seq<DataPoint>, x1Max: real, x2Max: real) returns (g: Sums)
    requires x1Max != 0.0 && x2Max != 0.0
    ensures g == SumsOf(ScaledObs(data, x1Max, x2Max))
  {
    hide X1, X2, ScaledObs, SumsOf, Sums.Add;
    ScaledEach(data, x1Max, x2Max);
    NoSums();
    var g11, g12, g22, gy1, gy2 := 0.0, 0.0, 0.0, 0.0, 0.0;
    ghost var obs := ScaledObs(data, x1Max, x2Max);
    for i := 0 to |data|
      invariant Sums(g11, g12, g22, gy1, gy2) == SumsOf(obs[..i])
    {
      var n1, n2, y := X1(data[i]) / x1Max, X2(data[i]) / x2Max, data[i].rssDelta as real;
      SumsNext(obs, i);
      assert obs[i] == Obs(n1, n2, y);
      AddedSums(Sums(g11, g12, g22, gy1, gy2), n1, n2, y);
      g11 := g11 + n1 * n1;
      g12 := g12 + n1 * n2;
      g22 := g22 + n2 * n2;
      gy1 := gy1 + n1 * y;
      gy2 := gy2 + n2 * y;
    }
    assert obs[..|data|] == obs;
    g := Sums(g11, g12, g22, gy1, gy2);
  }

  lemma ScaledEach(data: seq<DataPoint>, m1: real, m2: real)
    requires m1 != 0.0 && m2 != 0.0
    ensures |ScaledObs(data, m1, m2)| == |data|
    ensures forall i :: 0 <= i < |data| ==> ScaledObs(data, m1, m2)[i] == Scaled(data[i], m1, m2)
  {}

  lemma AddedSums(s: Sums, n1: real, n2: real, y: real)
    ensures s.Add(Obs(n1, n2, y)) == Sums(s.uu + n1 * n1, s.uv + n1 * n2, s.vv + n2 * n2, s.uy + n1 * y, s.vy + n2 * y)
  {}

  lemma NoSums()
    ensures SumsOf([]) == Sums(0.0, 0.0, 0.0, 0.0, 0.0)
  {}

  lemma SumsNext(obs: seq<Obs>, i: nat)
    requires i < |obs|
    ensures SumsOf(obs[..i + 1]) == SumsOf(obs[..i]).Add(obs[i])
  {
    assert obs[..i + 1][..i] == obs[..i];
  }

  lemma FitFrom(data: seq<DataPoint>, a: real, b: real)
    requires IsLeastSquares(data, a, b)
    ensures IsFit(data, FitOf(a, b))
  {}

  lemma {:induction false} MaximaBound(data: seq<DataPoint>)
    ensures MaxX1(data) >= 0.0 && MaxX2(data) >= 0.0
    ensures MaxX1(data) != 0.0 ==> exists i :: 0 <= i < |data| && X1(data[i]) == MaxX1(data)
  {
    if data != [] {
      MaximaBound(data[..|data| - 1]);
      if MaxX1(data) != X1(data[|data| - 1]) && MaxX1(data) != 0.0 {
        var i :| 0 <= i < |data| - 1 && X1(data[..|data| - 1][i]) == MaxX1(data[..|data| - 1]);
        assert X1(data[i]) == MaxX1(data);
      }
    }
  }

  lemma {:induction false} SquaresAdd(obs: seq<Obs>, i: nat)
    requires i < |obs|
    ensures SumsOf(obs).uu >= Square(obs[i].u) >= 0.0
  {
    var front, o := obs[..|obs| - 1], obs[|obs| - 1];
    assert o.u * o.u >= 0.0 && obs[i].u * obs[i].u >= 0.0;
    if i < |obs| - 1 {
      SquaresAdd(front, i);
    } else {
      EnergyForm(front, 1.0, 0.0);
      assert Gram(SumsOf(front), 1.0, 0.0) == SumsOf(front).uu;
    }
  }

  /** The largest scaled value is 1, so the first diagonal entry is at least 1. */
  lemma DiagonalAtLeastOne(data: seq<DataPoint>, m1: real, m2: real)
    requires m1 == MaxX1(data) != 0.0 && m2 != 0.0
    ensures SumsOf(ScaledObs(data, m1, m2)).uu >= 1.0
  {
    MaximaBound(data);
    var i :| 0 <= i < |data| && X1(data[i]) == m1;
    hide SumsOf, X1, X2;
    SquaresAdd(ScaledObs(data, m1, m2), i);
    SelfRatio(m1);
    assert ScaledObs(data, m1, m2)[i].u == 1.0;
    assert Square(1.0) == 1.0;
  }

  lemma SelfRatio(m: real)
    requires m != 0.0
    ensures m / m == 1.0
  {}

  /** Past the singularity test the scaled determinant is positive. */
  lemma ScaledDetPositive(data: seq<DataPoint>, m1: real, m2: real)
    requires m1 == MaxX1(data) != 0.0 && m2 != 0.0
    requires !NearSingular(SumsOf(ScaledObs(data, m1, m2)))
    ensures SumsOf(ScaledObs(data, m1, m2)).Det() > 0.0
  {
    var s := SumsOf(ScaledObs(data, m1, m2));
    DeterminantNonNegative(ScaledObs(data, m1, m2));
    DiagonalAtLeastOne(data, m1, m2);
    SquareAtLeastOne(MaxReal(s.uu, s.vv));
  }

  lemma SquareAtLeastOne(g: real)
    requires g >= 1.0
    ensures Square(g) >= 1.0
  {
    assert g * g >= g * 1.0;
  }

  // ---- From the scaled solution back to the measurements ----

  lemma ScaledPredict(dp: DataPoint, m1: real, m2: real, p: real, q: real)
    requires m1 > 0.0 && m2 > 0.0
    ensures Predict(Scaled(dp, m1, m2), p, q) == Predict(Raw(dp), p / m1, q / m2)
  {
    assert p * (X1(dp) / m1) == p / m1 * X1(dp);
    assert q * (X2(dp) / m2) == q / m2 * X2(dp);
  }

  /** y is x scaled up by m. */
  predicate Apart(x: real, m: real, y: real) { x * m == y }

  /** Residuals against scaled and unscaled columns differ by the scale factors. */
  lemma {:induction false} ScaledResiduals(data: seq<DataPoint>, m1: real, m2: real, p: real, q: real)
    requires m1 > 0.0 && m2 > 0.0
    ensures Apart(ResidualU(ScaledObs(data, m1, m2), p, q), m1, ResidualU(RawObs(data), p / m1, q / m2))
    ensures Apart(ResidualV(ScaledObs(data, m1, m2), p, q), m2, ResidualV(RawObs(data), p / m1, q / m2))
  {
    if data == [] {
      Nothing(m1);
      Nothing(m2);
    } else {
      hide Apart;
      var front, dp := data[..|data| - 1], data[|data| - 1];
      ScaledResiduals(front, m1, m2, p, q);
      ScaledSplit(data, m1, m2);
      ScaledPredict(dp, m1, m2, p, q);
      var s, t := ScaledObs(front, m1, m2), RawObs(front);
      ResidualsGrow(s, t, Scaled(dp, m1, m2), Raw(dp), m1, m2, p, q, p / m1, q / m2);
    }
  }

  /** One more observation keeps the residuals apart by the scale factors. */
  lemma ResidualsGrow(s: seq<Obs>, t: seq<Obs>, o: Obs, o': Obs, m1: real, m2: real, p: real, q: real, p': real, q': real)
    requires m1 > 0.0 && m2 > 0.0 && o.u == o'.u / m1 && o.v == o'.v / m2
    requires o.y - Predict(o, p, q) == o'.y - Predict(o', p', q')
    requires Apart(ResidualU(s, p, q), m1, ResidualU(t, p', q')) && Apart(ResidualV(s, p, q), m2, ResidualV(t, p', q'))
    ensures Apart(ResidualU(s + [o], p, q), m1, ResidualU(t + [o'], p', q'))
    ensures Apart(ResidualV(s + [o], p, q), m2, ResidualV(t + [o'], p', q'))
  {
    ResidualsOfOneMore(s, o, p, q);
    ResidualsOfOneMore(t, o', p', q');
    hide Predict, Times, Apart, ResidualU, ResidualV;
    ScaleProduct(ResidualU(s, p, q), o.u, o.y - Predict(o, p, q), m1, ResidualU(t, p', q'), o'.u);
    ScaleProduct(ResidualV(s, p, q), o.v, o.y - Predict(o, p, q), m2, ResidualV(t, p', q'), o'.v);
  }

  lemma ResidualsOfOneMore(s: seq<Obs>, o: Obs, p: real, q: real)
    ensures ResidualU(s + [o], p, q) == ResidualU(s, p, q) + Times(o.u, o.y - Predict(o, p, q))
    ensures ResidualV(s + [o], p, q) == ResidualV(s, p, q) + Times(o.v, o.y - Predict(o, p, q))
  {
    assert (s + [o])[..|s|] == s;
  }

  lemma Nothing(m: real)
    ensures 0.0 * m == 0.0
  {}

  lemma ScaledSplit(data: seq<DataPoint>, m1: real, m2: real)
    requires m1 > 0.0 && m2 > 0.0 && data != []
    ensures var front, dp := data[..|data| - 1], data[|data| - 1];
      && ScaledObs(data, m1, m2) == ScaledObs(front, m1, m2) + [Scaled(dp, m1, m2)]
      && RawObs(data) == RawObs(front) + [Raw(dp)]
  {
    hide X1, X2;
  }

  lemma ScaleProduct(sum: real, u: real, r: real, m: real, sum': real, x: real)
    requires m > 0.0 && u == x / m && Apart(sum, m, sum')
    ensures Apart(sum + Times(u, r), m, sum' + Times(x, r))
  {
    assert u * m == x;
    assert u * r * m == u * m * r;
  }

  lemma ApartFromNothing(x: real, m: real, y: real)
    requires m > 0.0 && Apart(x, m, y)
    ensures x == 0.0 <==> y == 0.0
  {
    Nothing(m);
    if y == 0.0 {
      Cancel(x, 0.0, m);
    }
  }

  lemma Undo(x: real, m: real)
    requires m > 0.0
    ensures x * m / m == x
  {}

  lemma UnscaledSolves(data: seq<DataPoint>, m1: real, m2: real, p: real, q: real)
    requires m1 > 0.0 && m2 > 0.0 && SolvesNormal(SumsOf(ScaledObs(data, m1, m2)), p, q)
    ensures SolvesNormal(SumsOf(RawObs(data)), p / m1, q / m2)
  {
    GapIsResidual(ScaledObs(data, m1, m2), p, q);
    GapIsResidual(RawObs(data), p / m1, q / m2);
    hide GapU, GapV;
    ScaledResiduals(data, m1, m2, p, q);
    ApartFromNothing(ResidualU(ScaledObs(data, m1, m2), p, q), m1, ResidualU(RawObs(data), p / m1, q / m2));
    ApartFromNothing(ResidualV(ScaledObs(data, m1, m2), p, q), m2, ResidualV(RawObs(data), p / m1, q / m2));
  }

  lemma SolutionIsLeast(data: seq<DataPoint>, a: real, b: real)
    requires SolvesNormal(SumsOf(RawObs(data)), a, b)
    ensures IsLeastSquares(data, a, b)
  {
    hide SolvesNormal;
    forall a': real, b': real ensures Sse(RawObs(data), a, b) <= Sse(RawObs(data), a', b') {
      NormalIsLeast(RawObs(data), a, b, a', b');
    }
  }

  /** Cramer's solution of the scaled system, unscaled, fits the measurements best. */
  lemma UnscaledIsLeast(data: seq<DataPoint>)
    requires !Degenerate(data)
    ensures MaxX1(data) > 0.0 && MaxX2(data) > 0.0
    ensures var s := SumsOf(ScaledObs(data, MaxX1(data), MaxX2(data)));
      s.Det() > 0.0 && IsLeastSquares(data, CramerU(s) / MaxX1(data), CramerV(s) / MaxX2(data))
  {
    var m1, m2 := MaxX1(data), MaxX2(data);
    MaximaBound(data);
    ScaledDetPositive(data, m1, m2);
    var s := SumsOf(ScaledObs(data, m1, m2));
    CramerSolves(s);
    UnscaledSolves(data, m1, m2, CramerU(s), CramerV(s));
    SolutionIsLeast(data, CramerU(s) / m1, CramerV(s) / m2);
  }

  // ---- The result is determined by the measurements ----

  lemma ScaledSolves(data: seq<DataPoint>, m1: real, m2: real, a: real, b: real)
    requires m1 > 0.0 && m2 > 0.0 && SolvesNormal(SumsOf(RawObs(data)), a, b)
    ensures SolvesNormal(SumsOf(ScaledObs(data, m1, m2)), a * m1, b * m2)
  {
    GapIsResidual(ScaledObs(data, m1, m2), a * m1, b * m2);
    GapIsResidual(RawObs(data), a, b);
    hide GapU, GapV;
    ScaledResiduals(data, m1, m2, a * m1, b * m2);
    Undo(a, m1);
    Undo(b, m2);
    ApartFromNothing(ResidualU(ScaledObs(data, m1, m2), a * m1, b * m2), m1, ResidualU(RawObs(data), a, b));
    ApartFromNothing(ResidualV(ScaledObs(data, m1, m2), a * m1, b * m2), m2, ResidualV(RawObs(data), a, b));
  }

  /** Past the degeneracy tests only one plane solves the un-normalised normal equations. */
  lemma RawUnique(data: seq<DataPoint>, a: real, b: real, a': real, b': real)
    requires !Degenerate(data)
    requires SolvesNormal(SumsOf(RawObs(data)), a, b) && SolvesNormal(SumsOf(RawObs(data)), a', b')
    ensures a == a' && b == b'
  {
    var m1, m2 := MaxX1(data), MaxX2(data);
    UnscaledIsLeast(data);
    hide SolvesNormal, SumsOf;
    ScaledSolves(data, m1, m2, a, b);
    ScaledSolves(data, m1, m2, a', b');
    NormalUnique(SumsOf(ScaledObs(data, m1, m2)), a * m1, b * m2, a' * m1, b' * m2);
    Cancel(a, a', m1);
    Cancel(b, b', m2);
  }

  /** So the fit is a function of the measurements. */
  lemma FitUnique(data: seq<DataPoint>, r: Option<(real, real)>, r': Option<(real, real)>)
    requires !Degenerate(data) && IsFit(data, r) && IsFit(data, r')
    ensures r == r'
  {
    hide Degenerate, SolvesNormal;
    var a, b :| IsLeastSquares(data, a, b) && r == FitOf(a, b);
    var a', b' :| IsLeastSquares(data, a', b') && r' == FitOf(a', b');
    RawUnique(data, a, b, a', b');
  }

  ghost predicate OnPlane(data: seq<DataPoint>, a: real, b: real) {
    forall i :: 0 <= i < |data| ==> Raw(data[i]).y == Predict(Raw(data[i]), a, b)
  }

  /** Measurements exactly on a plane return that plane's coefficients, clamped;
      in-range coefficients come back unchanged. */
  lemma PlaneRecovered(data: seq<DataPoint>, a: real, b: real, r: Option<(real, real)>)
    requires !Degenerate(data) && OnPlane(data, a, b) && IsFit(data, r)
    ensures r == FitOf(a, b)
    ensures A_MIN <= a <= A_MAX && B_MIN <= b <= B_MAX ==> r == Some((a, b))
  {
    hide Degenerate, SolvesNormal, Predict;
    PlaneSolvesNormal(RawObs(data), a, b);
    SolutionIsLeast(data, a, b);
    FitFrom(data, a, b);
    FitUnique(data, r, FitOf(a, b));
  }

  /** The predicted peak of one run. */
  function Predicted(dp: DataPoint, a: real, b: real): real { Predict(Raw(dp), a, b) }

  /** The point of the interval nearest x. */
  predicate Nearest(c: real, x: real, lo: real, hi: real) {
    && lo <= c <= hi
    && (x <= lo ==> c == lo)
    && (x >= hi ==> c == hi)
    && (lo <= x <= hi ==> c == x)
  }

  /** Nothing is returned exactly for a falling quadratic term. Otherwise each coefficient is the point
      of its range nearest the one least-squares plane's, so the fit never predicts less than that
      plane unless an upper limit acts. */
  lemma FitIsConservative(data: seq<DataPoint>, r: Option<(real, real)>, a: real, b: real, dp: DataPoint)
    requires !Degenerate(data) && IsFit(data, r) && IsLeastSquares(data, a, b)
    ensures r.None? <==> b < 0.0
    ensures r.Some? ==> Nearest(r.value.0, a, A_MIN, A_MAX) && Nearest(r.value.1, b, B_MIN, B_MAX)
    ensures r.Some? && a <= A_MAX && b <= B_MAX ==>
      Predicted(dp, r.value.0, r.value.1) >= Predicted(dp, a, b)
  {
    hide Degenerate, IsLeastSquares;
    FitFrom(data, a, b);
    FitUnique(data, r, FitOf(a, b));
    if r.Some? && a <= A_MAX && b <= B_MAX {
      PredictMonotone(dp, a, b, r.value.0, r.value.1);
    }
  }

  lemma PredictMonotone(dp: DataPoint, a: real, b: real, a': real, b': real)
    requires a <= a' && b <= b'
    ensures Predicted(dp, a, b) <= Predicted(dp, a', b')
  {
    assert dp.batch * dp.seqLen >= 0 && dp.batch * dp.seqLen * dp.seqLen >= 0;
    ProductMonotone(a, a', X1(dp));
    ProductMonotone(b, b', X2(dp));
  }

  lemma ProductMonotone(a: real, a': real, x: real)
    requires a <= a' && x >= 0.0
    ensures a * x <= a' * x
  {}

  // ---- When the measurements are singular ----

  /** All runs with any tokens in them have one sequence length. */
  predicate OneLength(data: seq<DataPoint>) {
    forall i, j :: 0 <= i < j < |data| && data[i].batch * data[i].seqLen > 0 && data[j].batch * data[j].seqLen > 0 ==>
      data[i].seqLen == data[j].seqLen
  }

  lemma ScaledCross(dp: DataPoint, dp': DataPoint, m1: real, m2: real)
    requires m1 > 0.0 && m2 > 0.0
    ensures Cross(Scaled(dp, m1, m2), Scaled(dp', m1, m2)) == 0.0 <==>
      dp.batch * dp.seqLen == 0 || dp'.batch * dp'.seqLen == 0 || dp.seqLen == dp'.seqLen
  {
    var n, n' := dp.batch * dp.seqLen, dp'.batch * dp'.seqLen;
    CrossOfScaled(n, dp.seqLen, n', dp'.seqLen, m1, m2);
    NoFactorZero(n, n', dp'.seqLen - dp.seqLen);
  }

  lemma CrossOfScaled(n: int, s: int, n': int, s': int, m1: real, m2: real)
    requires m1 > 0.0 && m2 > 0.0
    ensures (n' * s') as real / m2 * (n as real / m1) - n' as real / m1 * ((n * s) as real / m2) == 0.0 <==>
      n * n' * (s' - s) == 0
  {
    var x := (n' * s') as real / m2 * (n as real / m1) - n' as real / m1 * ((n * s) as real / m2);
    ScaledBack((n' * s') as real, m2, n as real, m1);
    ScaledBack(n' as real, m1, (n * s) as real, m2);
    assert x * (m1 * m2) == (n' * s') as real * n as real - n' as real * (n * s) as real;
    assert (n' * s') as real * n as real == (n' * s' * n) as real && n' as real * (n * s) as real == (n' * (n * s)) as real;
    assert n' * s' * n - n' * (n * s) == n * n' * (s' - s);
    assert m1 * m2 > 0.0;
    if x * (m1 * m2) == 0.0 {
      Nothing(m1 * m2);
      Cancel(x, 0.0, m1 * m2);
    }
  }

  lemma ScaledBack(x: real, m: real, y: real, l: real)
    requires m > 0.0 && l > 0.0
    ensures x / m * (y / l) * (l * m) == x * y
    ensures x / m * (y / l) * (m * l) == x * y
  {
    assert x / m * m == x && y / l * l == y;
    assert x / m * (y / l) * (l * m) == (x / m * m) * (y / l * l);
  }

  lemma NoFactorZero(x: int, y: int, z: int)
    ensures x * y * z == 0 <==> x == 0 || y == 0 || z == 0
  {}

  /** The scaled Gram matrix is singular exactly when all measured runs have one sequence length. */
  lemma SingularIff(data: seq<DataPoint>, m1: real, m2: real)
    requires m1 > 0.0 && m2 > 0.0
    ensures SumsOf(ScaledObs(data, m1, m2)).Det() == 0.0 <==> OneLength(data)
  {
    DeterminantZeroIff(ScaledObs(data, m1, m2));
    ScaledEach(data, m1, m2);
    hide SumsOf, Sums.Det, ScaledObs, Scaled, Cross;
    forall i, j | 0 <= i < j < |data|
      ensures Cross(ScaledObs(data, m1, m2)[i], ScaledObs(data, m1, m2)[j]) == 0.0 <==>
        data[i].batch * data[i].seqLen == 0 || data[j].batch * data[j].seqLen == 0 || data[i].seqLen == data[j].seqLen
    {
      ScaledCross(data[i], data[j], m1, m2);
    }
  }

  /** So runs at one length are never fitted, and whatever is fitted compares two lengths. */
  lemma OneLengthIsDegenerate(data: seq<DataPoint>)
    ensures OneLength(data) ==> Degenerate(data)
  {
    var m1, m2 := MaxX1(data), MaxX2(data);
    if !Degenerate(data) {
      UnscaledIsLeast(data);
      SingularIff(data, m1, m2);
    }
  }

  // ---- When they are not ----

  predicate InUnit(o: Obs) { 0.0 <= o.u <= 1.0 && 0.0 <= o.v <= 1.0 }

  lemma {:induction false} DiagonalAtMost(obs: seq<Obs>)
    requires forall i :: 0 <= i < |obs| ==> InUnit(obs[i])
    ensures 0.0 <= SumsOf(obs).uu <= |obs| as real && 0.0 <= SumsOf(obs).vv <= |obs| as real
  {
    if obs != [] {
      DiagonalAtMost(obs[..|obs| - 1]);
      UnitSquare(obs[|obs| - 1].u);
      UnitSquare(obs[|obs| - 1].v);
      hide Times, InUnit;
    }
  }

  lemma UnitSquare(x: real)
    requires 0.0 <= x <= 1.0
    ensures 0.0 <= Times(x, x) <= 1.0
  {
    ProductMonotone(x, 1.0, x);
    assert x * x <= 1.0 * x == x;
  }

  /** Few enough observations, two of them far enough apart, pass the determinant test. */
  lemma FarApart(obs: seq<Obs>, i: nat, gap: real)
    requires forall k :: 0 <= k < |obs| ==> InUnit(obs[k])
    requires i < |obs| - 1 && Cross(obs[i], obs[|obs| - 1]) >= gap >= 0.0
    requires 0.000001 * Square(|obs| as real) <= Square(gap)
    ensures !NearSingular(SumsOf(obs))
  {
    var s, c := SumsOf(obs), Cross(obs[i], obs[|obs| - 1]);
    DeterminantAtLeast(obs, i);
    DiagonalAtMost(obs);
    SquaresOrdered(gap, c);
    SquaresOrdered(MaxReal(s.uu, s.vv), |obs| as real);
    hide SumsOf, Sums.Det, Cross, Square;
  }

  lemma SquaresOrdered(x: real, y: real)
    requires 0.0 <= x <= y
    ensures Square(x) <= Square(y)
  {
    ProductMonotone(x, y, x);
    ProductMonotone(x, y, y);
  }

  lemma {:induction false} MaximaAtMost(data: seq<DataPoint>, m1: real, m2: real)
    requires m1 >= 0.0 && m2 >= 0.0 && forall i :: 0 <= i < |data| ==> X1(data[i]) <= m1 && X2(data[i]) <= m2
    ensures MaxX1(data) <= m1 && MaxX2(data) <= m2
  {
    hide X1, X2;
    if data != [] {
      MaximaAtMost(data[..|data| - 1], m1, m2);
    }
  }

  /** Measurements ascending by positions and by scores are scaled by the last one. */
  lemma ScaledByLast(data: seq<DataPoint>)
    requires data != []
    requires forall i :: 0 <= i < |data| ==> X1(data[i]) <= X1(data[|data| - 1]) && X2(data[i]) <= X2(data[|data| - 1])
    ensures MaxX1(data) == X1(data[|data| - 1]) && MaxX2(data) == X2(data[|data| - 1])
  {
    var last := data[|data| - 1];
    assert X1(last) >= 0.0 && X2(last) >= 0.0;
    MaximaAtMost(data, X1(last), X2(last));
    hide X1, X2;
  }
}
