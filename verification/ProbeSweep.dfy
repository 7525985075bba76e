/** The startup probe's sweep: which shapes are measured, and what a fit can make of them
    (src/probe/runner.rs). */
module ProbeSweep {
  import opened Numbers
  import opened Outcomes
  import opened CostModels
  import opened LeastSquares
  import opened Budget
  import opened Fit

  /** The shapes of a sweep up to the model's own maximum, by ascending token positions; a lower
      maximum at one of these lengths stops the list there. */
  const SHAPES: seq<(nat, nat)> := [(1, 64), (4, 64), (1, 256), (1, 1024), (1, 2048), (1, 4096), (1, MODEL_MAX_SEQ)]

  // ---- The loop ----

  /** The resident size before a shape's run, and the growth it measures, if it succeeds. */
  datatype Reading = Reading(rss: usize, delta: Option<nat>)

  /** The two guards: the conservative estimate within the ceiling, and four times it on top of the
      resident size within seven eighths of the kernel's limit, if that is known. */
  predicate Admitted(ceiling: usize, limit: usize, rss: usize, batch: nat, seqLen: nat) {
    && Conservative(ceiling).Fits(batch, seqLen)
    && (limit > 0 ==>
          SaturatingAdd(rss, SaturatingMul(Conservative(ceiling).ChunkCost(batch, seqLen) % (USIZE_MAX + 1), 4)) <=
          SaturatingSub(limit, limit / 8))
  }

  /** A shape is admitted exactly when its conservative cost is within the ceiling and the resident size
      with four times that cost is at most seven eighths of the limit, rounded up; nothing saturates. */
  lemma AdmittedIff(ceiling: usize, limit: usize, rss: usize, batch: nat, seqLen: nat)
    ensures var cost := PositionBytes(batch * seqLen, seqLen);
      Admitted(ceiling, limit, rss, batch, seqLen) <==>
        cost <= ceiling && (limit == 0 || 8 * (rss + 4 * cost) <= 7 * limit + 7)
  {
    ConservativeCost(ceiling, batch, seqLen);
    hide CostModel.ChunkCost, PositionBytes, SaturatingAdd, SaturatingSub, SaturatingMul;
    var cost := PositionBytes(batch * seqLen, seqLen);
    if cost <= ceiling && limit > 0 {
      RoundedGuard(cost, limit, rss);
    }
  }

  lemma RoundedGuard(cost: usize, limit: usize, rss: usize)
    requires limit > 0
    ensures SaturatingAdd(rss, SaturatingMul(cost % (USIZE_MAX + 1), 4)) <= SaturatingSub(limit, limit / 8) <==>
      8 * (rss + 4 * cost) <= 7 * limit + 7
  {}

  /** Shape i is measured. */
  predicate Measures(shapes: seq<(nat, nat)>, ceiling: usize, limit: usize, readings: nat -> Reading, i: nat) {
    i < |shapes| && Admitted(ceiling, limit, readings(i).rss, shapes[i].0, shapes[i].1) && readings(i).delta.Some?
  }

  /** Some places of a list of n, in its order. */
  predicate Places(places: seq<nat>, n: nat) {
    && (forall i, j :: 0 <= i < j < |places| ==> places[i] < places[j])
    && (forall i :: 0 <= i < |places| ==> places[i] < n)
  }

  /** The measurements made at these places of the list. */
  function Measured(shapes: seq<(nat, nat)>, places: seq<nat>, delta: nat -> nat): (data: seq<DataPoint>)
    requires Places(places, |shapes|)
  {
    seq(|places|, i requires 0 <= i < |places| => DataPoint(shapes[places[i]].0, shapes[places[i]].1, delta(places[i])))
  }

  function Delta(readings: nat -> Reading): nat -> nat {
    i => if readings(i).delta.Some? then readings(i).delta.value else 0
  }

  /** run_probe's loop: exactly the admitted shapes whose runs succeed are measured, in list order. */
  method Sweep(shapes: seq<(nat, nat)>, ceiling: usize, limit: usize, readings: nat -> Reading)
    returns (places: seq<nat>, data: seq<DataPoint>)
    ensures Places(places, |shapes|)
    ensures forall i :: 0 <= i < |shapes| ==> (i in places <==> Measures(shapes, ceiling, limit, readings, i))
    ensures data == Measured(shapes, places, Delta(readings))
  {
    places, data := [], [];
    hide Admitted;
    for i := 0 to |shapes|
      invariant Places(places, i)
      invariant forall k :: 0 <= k < i ==> (k in places <==> Measures(shapes, ceiling, limit, readings, k))
      invariant data == Measured(shapes, places, Delta(readings))
    {
      if Admitted(ceiling, limit, readings(i).rss, shapes[i].0, shapes[i].1) && readings(i).delta.Some? {
        places := places + [i];
        data := data + [DataPoint(shapes[i].0, shapes[i].1, readings(i).delta.value)];
      }
    }
  }

  // ---- What the measurements are good for ----

  function Data(places: seq<nat>, delta: nat -> nat): (data: seq<DataPoint>)
    requires Places(places, |SHAPES|)
  {
    Measured(SHAPES, places, delta)
  }

  lemma {:induction false} PlacesClimb(places: seq<nat>, i: nat)
    requires Places(places, |SHAPES|) && i < |places|
    ensures places[i] >= i
  {
    if i > 0 {
      PlacesClimb(places, i - 1);
    }
  }

  /** Later shapes have at least as many positions and scores, and are at least as long. */
  lemma ShapesAscend(x: nat, y: nat)
    requires x <= y < |SHAPES|
    ensures SHAPES[x].1 <= SHAPES[y].1
    ensures SHAPES[x].0 * SHAPES[x].1 <= SHAPES[y].0 * SHAPES[y].1
    ensures SHAPES[x].0 * SHAPES[x].1 * SHAPES[x].1 <= SHAPES[y].0 * SHAPES[y].1 * SHAPES[y].1
  {
    Listed(x);
    Listed(y);
  }

  lemma Listed(x: nat)
    requires x < |SHAPES|
    ensures SHAPES[x] == (1, 64) || SHAPES[x] == (4, 64) || SHAPES[x] == (1, 256) || SHAPES[x] == (1, 1024)
      || SHAPES[x] == (1, 2048) || SHAPES[x] == (1, 4096) || SHAPES[x] == (1, 8192)
  {}

  /** Shapes of different lengths are far from proportional once scaled by the longer one. */
  lemma ShapesSpread(x: nat, y: nat)
    requires x < y < |SHAPES| && SHAPES[x].1 < SHAPES[y].1
    ensures SHAPES[y].0 == 1 && SHAPES[x].0 * SHAPES[x].1 > 0
    ensures var n, s, t := SHAPES[x].0 * SHAPES[x].1, SHAPES[x].1, SHAPES[y].1;
      n * (t - s) * 16384 >= 127 * (t * t)
  {
    Listed(x);
    Listed(y);
  }

  lemma SpreadApart(n: nat, s: nat, t: nat)
    requires 0 < t && n * (t - s) * 16384 >= 127 * (t * t)
    ensures n as real / t as real - (n * s) as real / (t * t) as real >= 127.0 / 16384.0
  {
    var square := t * t;
    SameRatio(n, t);
    Difference((n * t) as real, (n * s) as real, square as real);
    assert n * (t - s) == n * t - n * s;
    AtLeastRatio((n * t) as real - (n * s) as real, square as real);
  }

  lemma SameRatio(n: nat, t: nat)
    requires t > 0
    ensures t * t > 0 && n as real / t as real == (n * t) as real / (t * t) as real
  {
    var q := n as real / t as real;
    assert q * t as real == n as real;
    assert (n * t) as real == n as real * t as real && (t * t) as real == t as real * t as real;
    assert q * (t * t) as real == (n * t) as real;
  }

  lemma Difference(x: real, y: real, m: real)
    requires m > 0.0
    ensures x / m - y / m == (x - y) / m
  {}

  lemma AtLeastRatio(x: real, m: real)
    requires m > 0.0 && x * 16384.0 >= 127.0 * m
    ensures x / m >= 127.0 / 16384.0
  {
    var q := x / m;
    assert q * m == x;
    assert (q - 127.0 / 16384.0) * m >= 0.0;
  }

  lemma Ratio(x: real, m: real)
    requires 0.0 <= x <= m && m > 0.0
    ensures 0.0 <= x / m <= 1.0
  {
    var q := x / m;
    assert q * m == x;
    assert (1.0 - q) * m >= 0.0;
  }

  /**
   * Whichever shapes of the sweep were measured and whatever growth was read, the fit gives up on
   * them exactly when they all have one length: no two lengths of the sweep are near enough for the
   * determinant test.
   */
  lemma SweepUsableIff(places: seq<nat>, delta: nat -> nat)
    requires Places(places, |SHAPES|)
    ensures Degenerate(Data(places, delta)) <==> OneLength(Data(places, delta))
  {
    var data := Data(places, delta);
    OneLengthIsDegenerate(data);
    hide Degenerate, OneLength;
    if !OneLength(data) {
      TwoLengths(places, delta);
      LengthsUsable(places, delta);
    }
  }

  lemma TwoLengths(places: seq<nat>, delta: nat -> nat)
    requires Places(places, |SHAPES|) && !OneLength(Data(places, delta))
    ensures |places| >= 2 && SHAPES[places[0]].1 < SHAPES[places[|places| - 1]].1
  {
    var data := Data(places, delta);
    var i, j :| 0 <= i < j < |data| && data[i].seqLen != data[j].seqLen;
    forall k | 0 < k < |places| ensures SHAPES[places[0]].1 <= SHAPES[places[k]].1 <= SHAPES[places[|places| - 1]].1 {
      ShapesAscend(places[0], places[k]);
      ShapesAscend(places[k], places[|places| - 1]);
    }
  }

  lemma LengthsUsable(places: seq<nat>, delta: nat -> nat)
    requires Places(places, |SHAPES|) && |places| >= 2 && SHAPES[places[0]].1 < SHAPES[places[|places| - 1]].1
    ensures !Degenerate(Data(places, delta))
  {
    var data, last := Data(places, delta), |places| - 1;
    var t := SHAPES[places[last]].1;
    ShapesSpread(places[0], places[last]);
    PlacesClimb(places, last);
    Maxima(places, delta);
    var m1, m2 := MaxX1(data), MaxX2(data);
    assert m1 == t as real && m2 == (t * t) as real;
    hide SHAPES;
    assert m1 > 0.0 && m2 > 0.0;
    SweepInUnit(places, delta);
    SweepFarApart(places, delta, t);
    hide Data, ScaledObs, Cross, NearSingular, SumsOf, MaxX1, MaxX2;
    ScaledEach(data, m1, m2);
    SevenAtMost(|data|);
    FarApart(ScaledObs(data, m1, m2), 0, 127.0 / 16384.0);
  }

  lemma SevenAtMost(n: nat)
    requires n <= 7
    ensures 0.000001 * Square(n as real) <= Square(127.0 / 16384.0)
  {
    SquaresOrdered(n as real, 7.0);
    assert Square(7.0) == 49.0;
    assert Square(127.0 / 16384.0) == 16129.0 / 268435456.0;
  }

  lemma Maxima(places: seq<nat>, delta: nat -> nat)
    requires Places(places, |SHAPES|) && places != []
    ensures var data, last := Data(places, delta), SHAPES[places[|places| - 1]];
      MaxX1(data) == (last.0 * last.1) as real && MaxX2(data) == (last.0 * last.1 * last.1) as real
  {
    var data, last := Data(places, delta), |places| - 1;
    forall i | 0 <= i < |data| ensures X1(data[i]) <= X1(data[last]) && X2(data[i]) <= X2(data[last]) {
      ShapesAscend(places[i], places[last]);
    }
    hide SHAPES;
    ScaledByLast(data);
  }

  lemma SweepInUnit(places: seq<nat>, delta: nat -> nat)
    requires Places(places, |SHAPES|) && places != []
    requires MaxX1(Data(places, delta)) > 0.0 && MaxX2(Data(places, delta)) > 0.0
    ensures var data := Data(places, delta);
      var obs := ScaledObs(data, MaxX1(data), MaxX2(data));
      forall i :: 0 <= i < |obs| ==> InUnit(obs[i])
  {
    var data, last := Data(places, delta), |places| - 1;
    var m1, m2 := MaxX1(data), MaxX2(data);
    ScaledEach(data, m1, m2);
    Maxima(places, delta);
    forall i | 0 <= i < |data| ensures InUnit(ScaledObs(data, m1, m2)[i]) {
      ShapesAscend(places[i], places[last]);
      hide SHAPES, ScaledObs, MaxX1, MaxX2;
      Ratio(X1(data[i]), m1);
      Ratio(X2(data[i]), m2);
    }
  }

  lemma SweepFarApart(places: seq<nat>, delta: nat -> nat, t: nat)
    requires Places(places, |SHAPES|) && |places| >= 2 && SHAPES[places[0]].1 < t == SHAPES[places[|places| - 1]].1
    requires MaxX1(Data(places, delta)) == t as real > 0.0 && MaxX2(Data(places, delta)) == (t * t) as real > 0.0
    ensures var data := Data(places, delta);
      var obs := ScaledObs(data, MaxX1(data), MaxX2(data));
      |obs| == |places| && Cross(obs[0], obs[|obs| - 1]) >= 127.0 / 16384.0
  {
    var data, last := Data(places, delta), |places| - 1;
    var n, s := SHAPES[places[0]].0 * SHAPES[places[0]].1, SHAPES[places[0]].1;
    ShapesSpread(places[0], places[last]);
    hide SHAPES;
    ScaledEach(data, t as real, (t * t) as real);
    SpreadApart(n, s, t);
    hide MaxX1, MaxX2, ScaledObs;
    var obs := ScaledObs(data, t as real, (t * t) as real);
    assert obs[0].u == n as real / t as real && obs[0].v == (n * s) as real / (t * t) as real;
    assert obs[last].u == 1.0 && obs[last].v == 1.0;
  }

  // ---- Planes come back ----

  /** The growth read at each shape when it lies exactly on the plane a N + b N s. */
  function PlaneGrowth(a: nat, b: nat): nat -> nat {
    i => if 0 <= i < |SHAPES| then a * (SHAPES[i].0 * SHAPES[i].1) + b * (SHAPES[i].0 * SHAPES[i].1 * SHAPES[i].1) else 0
  }

  /** So a sweep that measured any two lengths on a plane has one fit, the plane's coefficients. */
  lemma SweepRecovers(places: seq<nat>, a: nat, b: nat)
    requires Places(places, |SHAPES|) && !OneLength(Data(places, PlaneGrowth(a, b)))
    requires A_MIN <= a as real <= A_MAX && B_MIN <= b as real <= B_MAX
    ensures !Degenerate(Data(places, PlaneGrowth(a, b)))
    ensures forall r :: IsFit(Data(places, PlaneGrowth(a, b)), r) <==> r == Some((a as real, b as real))
  {
    var data := Data(places, PlaneGrowth(a, b));
    SweepUsableIff(places, PlaneGrowth(a, b));
    OnThatPlane(places, a, b);
    hide Degenerate, IsFit, OneLength, Data, OnPlane;
    PlaneIsTheFit(data, a as real, b as real);
  }

  lemma PlaneIsTheFit(data: seq<DataPoint>, a: real, b: real)
    requires !Degenerate(data) && OnPlane(data, a, b) && A_MIN <= a <= A_MAX && B_MIN <= b <= B_MAX
    ensures forall r :: IsFit(data, r) <==> r == Some((a, b))
  {
    hide Degenerate, IsFit, Predict;
    PlaneSolvesNormal(RawObs(data), a, b);
    SolutionIsLeast(data, a, b);
    FitFrom(data, a, b);
    forall r ensures IsFit(data, r) <==> r == Some((a, b)) {
      if IsFit(data, r) {
        PlaneRecovered(data, a, b, r);
      }
    }
  }

  lemma OnThatPlane(places: seq<nat>, a: nat, b: nat)
    requires Places(places, |SHAPES|)
    ensures OnPlane(Data(places, PlaneGrowth(a, b)), a as real, b as real)
  {
    var data := Data(places, PlaneGrowth(a, b));
    forall i | 0 <= i < |data| ensures Raw(data[i]).y == Predict(Raw(data[i]), a as real, b as real) {
      var n := data[i].batch * data[i].seqLen;
      assert data[i].rssDelta == a * n + b * (n * data[i].seqLen);
      hide SHAPES, Data, PlaneGrowth;
      PlanePoint(data[i], a, b);
    }
  }

  lemma PlanePoint(dp: DataPoint, a: nat, b: nat)
    requires var n := dp.batch * dp.seqLen; dp.rssDelta == a * n + b * (n * dp.seqLen)
    ensures Raw(dp).y == Predict(Raw(dp), a as real, b as real)
  {
    var n := dp.batch * dp.seqLen;
    PlaneValue(a, b, n, n * dp.seqLen);
  }

  lemma PlaneValue(a: nat, b: nat, x: nat, y: nat)
    ensures (a * x + b * y) as real == a as real * x as real + b as real * y as real
  {
    assert (a * x) as real == a as real * x as real;
    assert (b * y) as real == b as real * y as real;
  }

  // ---- What the probe returns ----

  predicate AllZero(data: seq<DataPoint>) { forall i :: 0 <= i < |data| ==> data[i].rssDelta == 0 }

  /** The fit's coefficients if it found some, and the conservative pair otherwise: also without any
      measurement, and when none of them shows any growth. */
  ghost predicate IsProbed(data: seq<DataPoint>, a: real, b: real) {
    if AllZero(data) || Degenerate(data) then (a, b) == (16384.0, 8.0)
    else exists r :: IsFit(data, r) && (a, b) == if r.Some? then r.value else (16384.0, 8.0)
  }

  method RunProbe(shapes: seq<(nat, nat)>, ceiling: usize, limit: usize, readings: nat -> Reading)
    returns (a: real, b: real, data: seq<DataPoint>, places: seq<nat>)
    ensures Places(places, |shapes|) && data == Measured(shapes, places, Delta(readings))
    ensures forall i :: 0 <= i < |shapes| ==> (i in places <==> Measures(shapes, ceiling, limit, readings, i))
    ensures IsProbed(data, a, b)
    ensures (forall i :: 0 <= i < |data| ==> data[i].rssDelta == 0) ==> (a, b) == (16384.0, 8.0)
  {
    places, data := Sweep(shapes, ceiling, limit, readings);
    hide Degenerate, IsFit;
    var grows := false;
    for i := 0 to |data|
      invariant grows <==> !AllZero(data[..i])
    {
      assert data[..i + 1] == data[..i] + [data[i]];
      grows := grows || data[i].rssDelta != 0;
    }
    assert data[..|data|] == data;
    a, b := CONSERVATIVE_A, CONSERVATIVE_B;
    if !grows {
      return;
    }
    var fit := FitCostModel(data);
    if fit.Some? {
      a, b := fit.value.0, fit.value.1;
    }
  }

  /** End to end: a probe that measured two lengths of the sweep on an in-range plane returns it. */
  lemma ProbeFindsPlane(places: seq<nat>, a: nat, b: nat, a': real, b': real)
    requires Places(places, |SHAPES|) && !OneLength(Data(places, PlaneGrowth(a, b)))
    requires A_MIN <= a as real <= A_MAX && B_MIN <= b as real <= B_MAX
    requires IsProbed(Data(places, PlaneGrowth(a, b)), a', b')
    ensures (a', b') == (a as real, b as real)
  {
    SweepRecovers(places, a, b);
    GrowthShows(places, a, b);
    hide Degenerate, IsFit, OneLength, Data, PlaneGrowth;
  }

  lemma GrowthShows(places: seq<nat>, a: nat, b: nat)
    requires Places(places, |SHAPES|) && places != [] && a > 0
    ensures !AllZero(Data(places, PlaneGrowth(a, b)))
  {
    var data, x := Data(places, PlaneGrowth(a, b)), places[0];
    Listed(x);
    assert data[0].rssDelta == PlaneGrowth(a, b)(x);
    assert a * (SHAPES[x].0 * SHAPES[x].1) > 0;
    assert b * (SHAPES[x].0 * SHAPES[x].1 * SHAPES[x].1) >= 0;
  }

  // ---- Where the determinant test draws the line ----

  /** Two single-text runs are usable exactly when their lengths s < t are this far apart; at a maximum
      of 4097, say, the runs at 4096 and 4097 alone are not. */
  lemma TwoRunsUsableIff(s: nat, t: nat, y: nat, z: nat)
    requires 0 < s < t
    ensures Degenerate([DataPoint(1, s, y), DataPoint(1, t, z)]) <==> 1000 * (s * (t - s)) < s * s + t * t
  {
    var data := [DataPoint(1, s, y), DataPoint(1, t, z)];
    var r := s as real / t as real;
    PairMaxima(s, t, y, z);
    PairScaled(s, t, y, z);
    Ratio(s as real, t as real);
    hide MaxX1, MaxX2, ScaledObs, SumsOf, NearSingular, Times, Square;
    NearSingularPair(r, y as real, z as real);
    hide *;
    ScaleUp(s, t, r);
  }

  lemma PairMaxima(s: nat, t: nat, y: nat, z: nat)
    requires 0 < s < t
    ensures var data := [DataPoint(1, s, y), DataPoint(1, t, z)];
      MaxX1(data) == t as real && MaxX2(data) == (t * t) as real && t * t > 0
  {
    var data := [DataPoint(1, s, y), DataPoint(1, t, z)];
    NatProductMonotone(s, s, t, t);
    assert t * t > 0;
    ScaledByLast(data);
    hide MaxX1, MaxX2;
  }

  lemma PairScaled(s: nat, t: nat, y: nat, z: nat)
    requires 0 < s < t && t * t > 0
    ensures var r := s as real / t as real;
      ScaledObs([DataPoint(1, s, y), DataPoint(1, t, z)], t as real, (t * t) as real) ==
        [Obs(r, Times(r, r), y as real), Obs(1.0, 1.0, z as real)]
  {
    var data := [DataPoint(1, s, y), DataPoint(1, t, z)];
    SquareRatio(s, t);
    SelfRatio(t as real);
    SelfRatio((t * t) as real);
    Single(s, y);
    Single(t, z);
    ScaledEach(data, t as real, (t * t) as real);
    hide ScaledObs, Times, X1, X2;
  }

  lemma Single(s: nat, y: nat)
    ensures X1(DataPoint(1, s, y)) == s as real && X2(DataPoint(1, s, y)) == (s * s) as real
  {}

  lemma SelfRatio(x: real)
    requires x > 0.0
    ensures x / x == 1.0
  {}

  lemma SquareRatio(s: nat, t: nat)
    requires t > 0 && t * t > 0
    ensures (s * s) as real / (t * t) as real == Times(s as real / t as real, s as real / t as real)
  {
    var q := s as real / t as real;
    assert q * t as real == s as real;
    assert (s * s) as real == s as real * s as real && (t * t) as real == t as real * t as real;
    assert q * q * (t as real * t as real) == (q * t as real) * (q * t as real);
  }

  lemma TwoSums(o: Obs, o': Obs)
    ensures SumsOf([o, o']).Det() == Square(Cross(o, o'))
    ensures SumsOf([o, o']).uu == Times(o.u, o.u) + Times(o'.u, o'.u) && SumsOf([o, o']).vv == Times(o.v, o.v) + Times(o'.v, o'.v)
  {
    assert [o, o'][..1] == [o] && [o][..0] == [];
    SumsOfOne(o);
    assert SumsOf([o, o']) == SumsOf([o]).Add(o');
    DeterminantGrows([o, o']);
    PredictIsCross(o, o');
    assert Energy([o], o'.v, -o'.u) == Square(Predict(o, o'.v, -o'.u));
    hide SumsOf, Sums.Det, Energy, Square, Times, Predict;
    TimesCommutes(o.v, o'.u);
    TimesCommutes(o.u, o'.v);
  }

  lemma SumsOfOne(o: Obs)
    ensures SumsOf([o]).Det() == 0.0 && Energy([], o.v, -o.u) == 0.0
    ensures SumsOf([o]).uu == Times(o.u, o.u) && SumsOf([o]).vv == Times(o.v, o.v)
  {
    hide *;
    FirstSum(o);
    NoDeterminant();
    DeterminantGrows([o]);
    NoEnergy(o);
    assert [o][..0] == [];
  }

  lemma FirstSum(o: Obs)
    ensures SumsOf([o]).uu == Times(o.u, o.u) && SumsOf([o]).vv == Times(o.v, o.v)
    ensures SumsOf([]) == Sums(0.0, 0.0, 0.0, 0.0, 0.0)
  {
    hide Times;
    assert [o][..0] == [];
    assert SumsOf([]) == Sums(0.0, 0.0, 0.0, 0.0, 0.0);
    assert SumsOf([o]) == SumsOf([]).Add(o);
  }

  lemma NoEnergy(o: Obs)
    ensures Energy([], o.v, -o.u) == 0.0
  {}

  lemma NoDeterminant()
    ensures Sums(0.0, 0.0, 0.0, 0.0, 0.0).Det() == 0.0
  {}

  lemma NearSingularPair(r: real, y: real, z: real)
    requires 0.0 <= r <= 1.0
    ensures NearSingular(SumsOf([Obs(r, Times(r, r), y), Obs(1.0, 1.0, z)])) <==> r - Times(r, r) < 0.001 * (1.0 + Times(r, r))
  {
    var q := Times(r, r);
    var sums := SumsOf([Obs(r, q, y), Obs(1.0, 1.0, z)]);
    TwoSums(Obs(r, q, y), Obs(1.0, 1.0, z));
    SquareShrinks(r);
    SquareShrinks(q);
    Thousandth(1.0 + q);
    assert Cross(Obs(r, q, y), Obs(1.0, 1.0, z)) == r - q;
    assert sums.uu == q + 1.0 && sums.vv == Times(q, q) + 1.0 && sums.Det() == Square(r - q);
    SquareZeroIff(r - q);
    hide SumsOf, Sums.Det, Square, Times;
    if r - q < 0.001 * (1.0 + q) {
      StrictSquares(r - q, 0.001 * (1.0 + q));
    } else {
      SquaresOrdered(0.001 * (1.0 + q), r - q);
    }
  }

  lemma Thousandth(x: real)
    ensures Square(0.001 * x) == 0.000001 * Square(x)
  {
    assert (0.001 * x) * (0.001 * x) == 0.000001 * (x * x);
  }

  lemma SquareShrinks(x: real)
    requires 0.0 <= x <= 1.0
    ensures 0.0 <= Times(x, x) <= x
  {
    assert Times(0.0, x) == 0.0 && Times(1.0, x) == x;
    hide Times;
    TimesOrdered(0.0, x, x);
    TimesOrdered(x, 1.0, x);
  }

  lemma StrictSquares(x: real, y: real)
    requires 0.0 <= x < y
    ensures Square(x) < Square(y)
  {
    hide Times;
    TimesOrdered(x, y, x);
    TimesStrict(x, y, y);
    TimesCommutes(x, y);
  }

  lemma ScaleUp(s: nat, t: nat, r: real)
    requires t > 0 && r == s as real / t as real && s < t
    ensures r - Times(r, r) < 0.001 * (1.0 + Times(r, r)) <==> 1000 * (s * (t - s)) < s * s + t * t
  {
    var x, square := t as real, (t * t) as real;
    assert Times(r, x) == s as real;
    TimesNat(t, t);
    TimesNat(s, t);
    TimesNat(s, s);
    Regrouped(r, x);
    assert s * (t - s) == s * t - s * s;
    var d := 0.001 * (1.0 + Times(r, r)) - (r - Times(r, r));
    Distributed(r, Times(r, r), square);
    assert square > 0.0 by {
      assert t * t > 0;
    }
    hide Times;
    assert Times(d, square) == 0.001 * (square + (s * s) as real) - ((s * t) as real - (s * s) as real);
    SameSign(d, square);
  }

  lemma Regrouped(r: real, x: real)
    ensures Times(r, Times(x, x)) == Times(Times(r, x), x)
    ensures Times(Times(r, r), Times(x, x)) == Times(Times(r, x), Times(r, x))
  {}

  lemma Distributed(r: real, q: real, m: real)
    ensures Times(0.001 * (1.0 + q) - (r - q), m) == 0.001 * (m + Times(q, m)) - (Times(r, m) - Times(q, m))
  {}

  lemma SameSign(d: real, m: real)
    requires m > 0.0
    ensures d > 0.0 <==> Times(d, m) > 0.0
  {
    assert Times(0.0, m) == 0.0;
    hide Times;
    if d > 0.0 {
      TimesStrict(0.0, d, m);
    } else {
      TimesOrdered(d, 0.0, m);
    }
  }
}
