/** No-intercept least squares in two variables: sums, normal equations, minimality. */
module LeastSquares {
  import opened Numbers

  datatype Obs = Obs(u: real, v: real, y: real)

  /** The five sums the accumulation loop keeps. */
  datatype Sums = Sums(uu: real, uv: real, vv: real, uy: real, vy: real) {

    function Add(o: Obs): Sums {
      Sums(uu + Times(o.u, o.u), uv + Times(o.u, o.v), vv + Times(o.v, o.v), uy + Times(o.u, o.y), vy + Times(o.v, o.y))
    }

    function Det(): real { uu * vv - uv * uv }
  }

  function SumsOf(obs: seq<Obs>): Sums {
    if obs == [] then Sums(0.0, 0.0, 0.0, 0.0, 0.0)
    else SumsOf(obs[..|obs| - 1]).Add(obs[|obs| - 1])
  }

  function Predict(o: Obs, p: real, q: real): real { p * o.u + q * o.v }

  function Square(x: real): real { Times(x, x) }

  /** Squared error of the plane p u + q v. */
  function Sse(obs: seq<Obs>, p: real, q: real): real {
    if obs == [] then 0.0
    else Sse(obs[..|obs| - 1], p, q) + Square(obs[|obs| - 1].y - Predict(obs[|obs| - 1], p, q))
  }

  /** Squared length of the plane p u + q v over the observations. */
  function Energy(obs: seq<Obs>, p: real, q: real): real {
    if obs == [] then 0.0
    else Energy(obs[..|obs| - 1], p, q) + Square(Predict(obs[|obs| - 1], p, q))
  }

  /** The Gram matrix as a quadratic form. */
  function Gram(s: Sums, p: real, q: real): real {
    p * p * s.uu + 2.0 * (p * q * s.uv) + q * q * s.vv
  }

  lemma {:induction false} EnergyForm(obs: seq<Obs>, p: real, q: real)
    ensures 0.0 <= Energy(obs, p, q) == Gram(SumsOf(obs), p, q)
  {
    if obs == [] {
      assert p * p * 0.0 == 0.0 && p * q * 0.0 == 0.0 && q * q * 0.0 == 0.0;
    } else {
      EnergyForm(obs[..|obs| - 1], p, q);
      EnergyStep(SumsOf(obs[..|obs| - 1]), obs[|obs| - 1], p, q);
    }
  }

  lemma EnergyStep(s: Sums, o: Obs, p: real, q: real)
    ensures Gram(s.Add(o), p, q) == Gram(s, p, q) + Square(Predict(o, p, q))
    ensures Square(Predict(o, p, q)) >= 0.0
  {
    assert p * p * (s.uu + o.u * o.u) == p * p * s.uu + p * p * (o.u * o.u);
    assert p * q * (s.uv + o.u * o.v) == p * q * s.uv + p * q * (o.u * o.v);
    assert q * q * (s.vv + o.v * o.v) == q * q * s.vv + q * q * (o.v * o.v);
    var x, y := p * o.u, q * o.v;
    assert Square(x + y) == x * x + 2.0 * (x * y) + y * y;
    assert x * x == p * p * (o.u * o.u) && y * y == q * q * (o.v * o.v) && x * y == p * q * (o.u * o.v);
  }

  /** Cauchy-Schwarz over the accumulation loop: the Gram determinant is never negative. */
  lemma {:induction false} DeterminantNonNegative(obs: seq<Obs>)
    ensures SumsOf(obs).Det() >= 0.0
  {
    if obs != [] {
      var front, o := obs[..|obs| - 1], obs[|obs| - 1];
      DeterminantNonNegative(front);
      EnergyForm(front, o.v, -o.u);
      DeterminantStep(SumsOf(front), o);
    }
  }

  lemma DeterminantStep(s: Sums, o: Obs)
    ensures s.Add(o).Det() == s.Det() + Gram(s, o.v, -o.u)
  {
    var a, b, c := o.u * o.u, o.u * o.v, o.v * o.v;
    assert a * c == b * b by { assert a * c == o.u * (o.u * o.v) * o.v; }
    assert (s.uu + a) * (s.vv + c) == s.uu * s.vv + s.uu * c + a * s.vv + a * c;
    assert (s.uv + b) * (s.uv + b) == s.uv * s.uv + 2.0 * (s.uv * b) + b * b;
    assert o.v * (-o.u) * s.uv == -(s.uv * b);
    assert (-o.u) * (-o.u) == a;
  }

  lemma {:induction false} EnergyZeroIff(obs: seq<Obs>, p: real, q: real)
    ensures Energy(obs, p, q) >= 0.0
    ensures Energy(obs, p, q) == 0.0 <==> forall i :: 0 <= i < |obs| ==> Predict(obs[i], p, q) == 0.0
  {
    if obs != [] {
      var last := |obs| - 1;
      EnergyZeroIff(obs[..last], p, q);
      SquareZeroIff(Predict(obs[last], p, q));
      hide Predict, Square;
      assert forall i :: 0 <= i < last ==> obs[..last][i] == obs[i];
    }
  }

  lemma SquareZeroIff(x: real)
    ensures Square(x) >= 0.0 && (Square(x) == 0.0 <==> x == 0.0)
  {
    if x > 0.0 {
      SameSigns(x, x);
    } else if x < 0.0 {
      SameSigns(x, x);
    } else {
      assert Times(0.0, 0.0) == 0.0;
    }
    hide Times;
  }

  lemma SameSigns(x: real, y: real)
    requires (x > 0.0 && y > 0.0) || (x < 0.0 && y < 0.0)
    ensures Times(x, y) > 0.0
  {}

  /** How far two observations are from being proportional. */
  function Cross(o: Obs, o': Obs): real { o'.v * o.u - o'.u * o.v }

  ghost predicate Proportional(obs: seq<Obs>) {
    forall i, j :: 0 <= i < j < |obs| ==> Cross(obs[i], obs[j]) == 0.0
  }

  /** Equality in Cauchy-Schwarz: the determinant vanishes exactly when all observations are
      proportional to each other. */
  lemma {:induction false} DeterminantZeroIff(obs: seq<Obs>)
    ensures SumsOf(obs).Det() == 0.0 <==> Proportional(obs)
  {
    if obs != [] {
      var last := |obs| - 1;
      var front, o := obs[..last], obs[last];
      DeterminantZeroIff(front);
      DeterminantNonNegative(front);
      DeterminantStep(SumsOf(front), o);
      EnergyForm(front, o.v, -o.u);
      EnergyZeroIff(front, o.v, -o.u);
      forall i | 0 <= i < last ensures Predict(front[i], o.v, -o.u) == Cross(obs[i], o) {
        assert -o.u * obs[i].v == -(o.u * obs[i].v);
      }
      hide Predict, Cross, SumsOf, Sums.Det, Sums.Add, Gram, Energy;
      LastPairs(obs);
    }
  }

  lemma {:induction false} EnergyAtLeast(obs: seq<Obs>, p: real, q: real, i: nat)
    requires i < |obs|
    ensures Energy(obs, p, q) >= Square(Predict(obs[i], p, q))
  {
    var last := |obs| - 1;
    SquareZeroIff(Predict(obs[last], p, q));
    EnergyZeroIff(obs[..last], p, q);
    hide Predict, Square;
    if i < last {
      EnergyAtLeast(obs[..last], p, q, i);
    }
  }

  lemma DeterminantGrows(obs: seq<Obs>)
    requires obs != []
    ensures var front, o := obs[..|obs| - 1], obs[|obs| - 1];
      SumsOf(obs).Det() == SumsOf(front).Det() + Energy(front, o.v, -o.u)
  {
    var front, o := obs[..|obs| - 1], obs[|obs| - 1];
    hide Sums.Det, Sums.Add, Gram, Energy;
    DeterminantStep(SumsOf(front), o);
    EnergyForm(front, o.v, -o.u);
  }

  lemma PredictIsCross(o: Obs, o': Obs)
    ensures Predict(o, o'.v, -o'.u) == Cross(o, o')
  {
    assert -o'.u * o.v == -(o'.u * o.v);
  }

  /** Two observations far from proportional keep the determinant away from zero. */
  lemma DeterminantAtLeast(obs: seq<Obs>, i: nat)
    requires i < |obs| - 1
    ensures SumsOf(obs).Det() >= Square(Cross(obs[i], obs[|obs| - 1]))
  {
    hide Predict, Cross, SumsOf, Sums.Det, Energy, Square;
    var front, o := obs[..|obs| - 1], obs[|obs| - 1];
    DeterminantNonNegative(front);
    DeterminantGrows(obs);
    EnergyAtLeast(front, o.v, -o.u, i);
    PredictIsCross(obs[i], o);
  }

  lemma LastPairs(obs: seq<Obs>)
    requires obs != []
    ensures var last := |obs| - 1;
      Proportional(obs) <==> Proportional(obs[..last]) && forall i :: 0 <= i < last ==> Cross(obs[i], obs[last]) == 0.0
  {
    hide Cross;
    assert forall i :: 0 <= i < |obs| - 1 ==> obs[..|obs| - 1][i] == obs[i];
  }

  /** How far the plane is from meeting each normal equation. */
  function GapU(s: Sums, p: real, q: real): real { s.uy - (p * s.uu + q * s.uv) }

  function GapV(s: Sums, p: real, q: real): real { s.vy - (p * s.uv + q * s.vv) }

  /** The plane meets the normal equations: the residual is orthogonal to both columns. */
  predicate SolvesNormal(s: Sums, p: real, q: real) {
    GapU(s, p, q) == 0.0 && GapV(s, p, q) == 0.0
  }

  /** Cramer's rule. */
  function CramerU(s: Sums): real
    requires s.Det() != 0.0
  {
    (s.vv * s.uy - s.uv * s.vy) / s.Det()
  }

  function CramerV(s: Sums): real
    requires s.Det() != 0.0
  {
    (s.uu * s.vy - s.uv * s.uy) / s.Det()
  }

  lemma CramerSolves(s: Sums)
    requires s.Det() != 0.0
    ensures SolvesNormal(s, CramerU(s), CramerV(s))
  {
    var d, p, q := s.Det(), CramerU(s), CramerV(s);
    var m, n := s.vv * s.uy - s.uv * s.vy, s.uu * s.vy - s.uv * s.uy;
    assert p * d == m && q * d == n;
    CramerRow(s.uu, s.uv, s.uv, s.vv, s.uy, s.vy);
    Cancel(p * s.uu + q * s.uv, s.uy, d) by {
      assert (p * s.uu + q * s.uv) * d == s.uu * (p * d) + s.uv * (q * d);
    }
    Cancel(p * s.uv + q * s.vv, s.vy, d) by {
      assert (p * s.uv + q * s.vv) * d == s.uv * (p * d) + s.vv * (q * d);
    }
  }

  lemma CramerRow(a: real, b: real, c: real, d: real, y: real, z: real)
    requires b == c
    ensures a * (d * y - b * z) + b * (a * z - b * y) == y * (a * d - b * b)
    ensures b * (d * y - b * z) + d * (a * z - b * y) == z * (a * d - b * b)
  {}

  lemma Cancel(x: real, y: real, d: real)
    requires d != 0.0 && x * d == y * d
    ensures x == y
  {
    assert (x - y) * d == 0.0;
  }

  /** The determinant separates solutions. */
  lemma NormalUnique(s: Sums, p: real, q: real, p': real, q': real)
    requires s.Det() != 0.0 && SolvesNormal(s, p, q) && SolvesNormal(s, p', q')
    ensures p == p' && q == q'
  {
    var d := s.Det();
    var dp, dq := p - p', q - q';
    assert dp * s.uu + dq * s.uv == 0.0 && dp * s.uv + dq * s.vv == 0.0;
    EliminateColumn(s.uu, s.uv, s.vv, dp, dq);
    Cancel(dp, 0.0, d);
    Cancel(dq, 0.0, d);
  }

  lemma EliminateColumn(a: real, b: real, c: real, x: real, y: real)
    requires x * a + y * b == 0.0 && x * b + y * c == 0.0
    ensures x * (a * c - b * b) == 0.0 && y * (a * c - b * b) == 0.0
  {
    assert x * (a * c - b * b) == (x * a + y * b) * c - (x * b + y * c) * b;
    assert y * (a * c - b * b) == (x * b + y * c) * a - (x * a + y * b) * b;
  }

  /** The gaps along a direction. */
  function Along(s: Sums, p: real, q: real, dp: real, dq: real): real {
    dp * GapU(s, p, q) + dq * GapV(s, p, q)
  }

  /** Moving any plane by (dp, dq) adds the energy of the move, less twice its gaps along it. */
  lemma {:induction false} SseShift(obs: seq<Obs>, p: real, q: real, dp: real, dq: real)
    ensures Sse(obs, p + dp, q + dq) == Sse(obs, p, q) + Energy(obs, dp, dq) - 2.0 * Along(SumsOf(obs), p, q, dp, dq)
  {
    hide Along, Square;
    if obs == [] {
      AlongNothing(p, q, dp, dq);
    } else {
      var front, o := obs[..|obs| - 1], obs[|obs| - 1];
      SseShift(front, p, q, dp, dq);
      AlongStep(SumsOf(front), o, p, q, dp, dq);
      SquareShift(o, p, q, dp, dq);
    }
  }

  lemma AlongNothing(p: real, q: real, dp: real, dq: real)
    ensures Along(SumsOf([]), p, q, dp, dq) == 0.0
  {
    assert p * 0.0 == 0.0 && q * 0.0 == 0.0 && dp * 0.0 == 0.0 && dq * 0.0 == 0.0;
  }

  lemma AlongStep(s: Sums, o: Obs, p: real, q: real, dp: real, dq: real)
    ensures var r := o.y - Predict(o, p, q);
      Along(s.Add(o), p, q, dp, dq) == Along(s, p, q, dp, dq) + (dp * (o.u * r) + dq * (o.v * r))
  {
    hide GapU, GapV, Predict;
    var r := o.y - Predict(o, p, q);
    GapStep(s, o, p, q);
    Spread(dp, GapU(s, p, q), o.u * r);
    Spread(dq, GapV(s, p, q), o.v * r);
  }

  lemma Spread(d: real, x: real, y: real)
    ensures d * (x + y) == d * x + d * y
  {}

  lemma GapStep(s: Sums, o: Obs, p: real, q: real)
    ensures GapU(s.Add(o), p, q) == GapU(s, p, q) + Times(o.u, o.y - Predict(o, p, q))
    ensures GapV(s.Add(o), p, q) == GapV(s, p, q) + Times(o.v, o.y - Predict(o, p, q))
  {
    ResidualStep(o, p, q);
    GrowColumn(s.uy, s.uu, s.uv, o.u * o.y, o.u * o.u, o.u * o.v, p, q);
    GrowColumn(s.vy, s.uv, s.vv, o.v * o.y, o.u * o.v, o.v * o.v, p, q);
  }

  /** The residual summed against each column. */
  function ResidualU(obs: seq<Obs>, p: real, q: real): real {
    if obs == [] then 0.0
    else var o := obs[|obs| - 1]; ResidualU(obs[..|obs| - 1], p, q) + Times(o.u, o.y - Predict(o, p, q))
  }

  function ResidualV(obs: seq<Obs>, p: real, q: real): real {
    if obs == [] then 0.0
    else var o := obs[|obs| - 1]; ResidualV(obs[..|obs| - 1], p, q) + Times(o.v, o.y - Predict(o, p, q))
  }

  lemma {:induction false} GapIsResidual(obs: seq<Obs>, p: real, q: real)
    ensures GapU(SumsOf(obs), p, q) == ResidualU(obs, p, q)
    ensures GapV(SumsOf(obs), p, q) == ResidualV(obs, p, q)
  {
    if obs == [] {
      assert p * 0.0 == 0.0 && q * 0.0 == 0.0;
    } else {
      hide GapU, GapV, Predict, Times, Sums.Add;
      GapIsResidual(obs[..|obs| - 1], p, q);
      GapStep(SumsOf(obs[..|obs| - 1]), obs[|obs| - 1], p, q);
    }
  }

  lemma SquareShift(o: Obs, p: real, q: real, dp: real, dq: real)
    ensures var r := o.y - Predict(o, p, q);
      Square(o.y - Predict(o, p + dp, q + dq))
        == Square(r) + Square(Predict(o, dp, dq)) - 2.0 * (dp * (o.u * r) + dq * (o.v * r))
  {
    var r, m := o.y - Predict(o, p, q), Predict(o, dp, dq);
    assert (p + dp) * o.u == p * o.u + dp * o.u && (q + dq) * o.v == q * o.v + dq * o.v;
    assert Square(r - m) == Square(r) + Square(m) - 2.0 * (m * r);
    assert m * r == dp * o.u * r + dq * o.v * r;
    assert dp * o.u * r == dp * (o.u * r) && dq * o.v * r == dq * (o.v * r);
  }

  lemma ResidualStep(o: Obs, p: real, q: real)
    ensures var r := o.y - Predict(o, p, q);
      && o.u * r == o.u * o.y - (p * (o.u * o.u) + q * (o.u * o.v))
      && o.v * r == o.v * o.y - (p * (o.u * o.v) + q * (o.v * o.v))
  {
    assert o.u * (p * o.u) == p * (o.u * o.u) && o.u * (q * o.v) == q * (o.u * o.v);
    assert o.v * (p * o.u) == p * (o.u * o.v) && o.v * (q * o.v) == q * (o.v * o.v);
    assert o.u * (o.y - (p * o.u + q * o.v)) == o.u * o.y - (o.u * (p * o.u) + o.u * (q * o.v));
    assert o.v * (o.y - (p * o.u + q * o.v)) == o.v * o.y - (o.v * (p * o.u) + o.v * (q * o.v));
  }

  lemma GrowColumn(y: real, a: real, b: real, dy: real, da: real, db: real, p: real, q: real)
    ensures (y + dy) - (p * (a + da) + q * (b + db)) == (y - (p * a + q * b)) + (dy - (p * da + q * db))
  {
    assert p * (a + da) == p * a + p * da && q * (b + db) == q * b + q * db;
  }

  /** A solution of the normal equations has the least squared error of all planes. */
  lemma NormalIsLeast(obs: seq<Obs>, p: real, q: real, p': real, q': real)
    requires SolvesNormal(SumsOf(obs), p, q)
    ensures Sse(obs, p, q) <= Sse(obs, p', q')
  {
    SseShift(obs, p, q, p' - p, q' - q);
    EnergyForm(obs, p' - p, q' - q);
    assert (p' - p) * 0.0 == 0.0 && (q' - q) * 0.0 == 0.0;
    assert Along(SumsOf(obs), p, q, p' - p, q' - q) == 0.0;
  }

  /** Data exactly on a plane satisfies the normal equations with that plane. */
  lemma PlaneSolvesNormal(obs: seq<Obs>, p: real, q: real)
    requires forall i :: 0 <= i < |obs| ==> obs[i].y == Predict(obs[i], p, q)
    ensures SolvesNormal(SumsOf(obs), p, q)
  {
    GapIsResidual(obs, p, q);
    NoResidual(obs, p, q);
  }

  lemma {:induction false} NoResidual(obs: seq<Obs>, p: real, q: real)
    requires forall i :: 0 <= i < |obs| ==> obs[i].y == Predict(obs[i], p, q)
    ensures ResidualU(obs, p, q) == 0.0 && ResidualV(obs, p, q) == 0.0
  {
    hide Predict;
    if obs != [] {
      NoResidual(obs[..|obs| - 1], p, q);
      assert obs[|obs| - 1].u * 0.0 == 0.0 && obs[|obs| - 1].v * 0.0 == 0.0;
    }
  }
}
