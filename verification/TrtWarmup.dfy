/** TensorRT prewarm against the session's shape profile (src/embedder/trt_warmup.rs). */
module TrtWarmup {
  import opened Numbers
  import opened Outcomes
  import opened WarmupShapes
  import opened Sorting

  /** The per-dimension ranges a compiled engine profile covers. */
  datatype Box = Box(minBatch: nat, maxBatch: nat, minSeq: nat, maxSeq: nat)

  predicate Inside(box: Option<Box>, s: Shape) {
    box.Some? && box.value.minBatch <= s.batch <= box.value.maxBatch && box.value.minSeq <= s.seqLen <= box.value.maxSeq
  }

  /** The smallest profile holding the old one and the shape. */
  function Hull(box: Option<Box>, s: Shape): Box {
    match box
    case None => Box(s.batch, s.batch, s.seqLen, s.seqLen)
    case Some(b) => Box(Min(b.minBatch, s.batch), Max(b.maxBatch, s.batch), Min(b.minSeq, s.seqLen), Max(b.maxSeq, s.seqLen))
  }

  /** How one dummy run went; `fast` is the sub-threshold timing the source calls a cache hit. */
  datatype RunOutcome = RunOutcome(succeeded: bool, fast: bool)

  datatype ShapeRun = ShapeRun(shape: Shape, outcome: RunOutcome)

  /** The environment's choice for one run: whether it succeeds, and how fast a failure comes. */
  datatype Attempt = Attempt(succeeds: bool, failsFast: bool)

  predicate FastHit(o: RunOutcome) { o.succeeded && o.fast }

  /** A session: a profile that grows by compiling, and the runs made on it. */
  class Session {
    var profile: Option<Box>
    var runs: seq<ShapeRun>
    const environment: nat -> Attempt

    constructor (environment: nat -> Attempt, profile: Option<Box>)
      ensures this.environment == environment && this.profile == profile && runs == []
    {
      this.environment, this.profile, runs := environment, profile, [];
    }

    /** A successful run is fast exactly when the profile covers the shape; otherwise it compiles
        and the profile grows to cover it. A failed run changes nothing. */
    method RunWarmupShape(s: Shape) returns (o: RunOutcome)
      modifies this
      ensures runs == old(runs) + [ShapeRun(s, o)]
      ensures o.succeeded == environment(|old(runs)|).succeeds
      ensures o.succeeded ==> (o.fast <==> Inside(old(profile), s)) && Inside(profile, s)
      ensures profile == if o.succeeded && !o.fast then Some(Hull(old(profile), s)) else old(profile)
    {
      var attempt := environment(|runs|);
      o := RunOutcome(attempt.succeeds, if attempt.succeeds then Inside(profile, s) else attempt.failsFast);
      runs := runs + [ShapeRun(s, o)];
      if o.succeeded && !o.fast {
        profile := Some(Hull(profile, s));
      }
    }
  }

  // ---- The dimensional-extreme check shapes ----

  function Batches(shapes: seq<Shape>): seq<nat> { seq(|shapes|, i requires 0 <= i < |shapes| => shapes[i].batch) }

  function Seqs(shapes: seq<Shape>): seq<nat> { seq(|shapes|, i requires 0 <= i < |shapes| => shapes[i].seqLen) }

  function LeastIn(xs: seq<nat>): (m: nat)
    requires xs != []
    ensures m in xs && forall i :: 0 <= i < |xs| ==> m <= xs[i]
  {
    if |xs| == 1 then xs[0] else Min(LeastIn(xs[..|xs| - 1]), xs[|xs| - 1])
  }

  function GreatestIn(xs: seq<nat>): (m: nat)
    requires xs != []
    ensures m in xs && forall i :: 0 <= i < |xs| ==> xs[i] <= m
  {
    if |xs| == 1 then xs[0] else Max(GreatestIn(xs[..|xs| - 1]), xs[|xs| - 1])
  }

  /** The first index holding x. */
  function Find(xs: seq<nat>, x: nat): (i: nat)
    requires x in xs
    ensures i < |xs| && xs[i] == x && x !in xs[..i]
  {
    if xs[0] == x then 0 else Find(xs[1..], x) + 1
  }

  /** The first shapes carrying the least batch, the greatest batch, the least and the greatest length. */
  function Extremes(shapes: seq<Shape>): (r: seq<Shape>)
    requires shapes != []
    ensures forall i :: 0 <= i < |r| ==> r[i] in shapes
  {
    var bs, ss := Batches(shapes), Seqs(shapes);
    [shapes[Find(bs, LeastIn(bs))], shapes[Find(bs, GreatestIn(bs))],
     shapes[Find(ss, LeastIn(ss))], shapes[Find(ss, GreatestIn(ss))]]
  }

  /** A set of shapes whose coverage settles the coverage of all the shapes. */
  ghost predicate Represents(check: seq<Shape>, shapes: seq<Shape>) {
    && |check| <= 4 && Distinct(check)
    && (forall i :: 0 <= i < |check| ==> check[i] in shapes)
    && (shapes != [] ==> check != [] && forall s :: s in Extremes(shapes) ==> s in check)
  }

  method CoverageCheckShapes(shapes: seq<Shape>) returns (result: seq<Shape>)
    ensures Represents(result, shapes)
  {
    result := [];
    if shapes == [] {
      return;
    }
    var extremes := Extremes(shapes);
    for k := 0 to |extremes|
      invariant |result| <= k && Distinct(result)
      invariant forall i :: 0 <= i < |result| ==> result[i] in shapes
      invariant forall i :: 0 <= i < k ==> extremes[i] in result
    {
      if extremes[k] !in result {
        result := result + [extremes[k]];
      }
    }
    assert extremes[0] in result;
  }

  predicate AllInside(box: Option<Box>, shapes: seq<Shape>) {
    forall i :: 0 <= i < |shapes| ==> Inside(box, shapes[i])
  }

  /** A profile holds every shape exactly when it holds the at most four check shapes. */
  lemma ExtremesDecideCoverage(box: Option<Box>, check: seq<Shape>, shapes: seq<Shape>)
    requires Represents(check, shapes)
    ensures AllInside(box, check) <==> AllInside(box, shapes)
    ensures shapes != [] ==> check != []
  {
    if shapes != [] && AllInside(box, check) {
      var bs, ss, e := Batches(shapes), Seqs(shapes), Extremes(shapes);
      assert e[0] in check && e[1] in check && e[2] in check && e[3] in check;
      forall i | 0 <= i < |shapes| ensures Inside(box, shapes[i]) {
        assert bs[i] == shapes[i].batch && ss[i] == shapes[i].seqLen;
      }
    }
  }

  /** The check shapes include one of the greatest length. */
  lemma ExtremesReachMaximum(check: seq<Shape>, shapes: seq<Shape>)
    requires Represents(check, shapes)
    ensures MaxSeq(check) == MaxSeq(shapes)
  {
    MaxSeqBounds(check);
    MaxSeqBounds(shapes);
    if shapes != [] {
      var ss, e := Seqs(shapes), Extremes(shapes);
      assert e[3] in check;
      forall i | 0 <= i < |shapes| ensures shapes[i].seqLen <= e[3].seqLen {
        assert ss[i] == shapes[i].seqLen;
      }
    }
  }

  // ---- The prewarm sweep ----

  datatype PrewarmStats = PrewarmStats(warmed: nat, fullyCached: bool, skipped: nat, freshCompiles: nat, maxWarmedSeq: nat)

  function Shapes(runs: seq<ShapeRun>): seq<Shape> { seq(|runs|, i requires 0 <= i < |runs| => runs[i].shape) }

  function Warmed(runs: seq<ShapeRun>): nat {
    if runs == [] then 0 else Warmed(runs[..|runs| - 1]) + if runs[|runs| - 1].outcome.succeeded then 1 else 0
  }

  function Fresh(runs: seq<ShapeRun>): nat {
    if runs == [] then 0
    else
      var o := runs[|runs| - 1].outcome;
      Fresh(runs[..|runs| - 1]) + if o.succeeded && !o.fast then 1 else 0
  }

  function LongestWarmed(runs: seq<ShapeRun>): nat {
    if runs == [] then 0
    else
      var last, front := runs[|runs| - 1], LongestWarmed(runs[..|runs| - 1]);
      if last.outcome.succeeded then Max(front, last.shape.seqLen) else front
  }

  /** The counters after some runs. */
  datatype Tally = Tally(warmed: nat, compiled: nat, longest: nat) {

    function Add(r: ShapeRun): Tally {
      if !r.outcome.succeeded then this
      else Tally(warmed + 1, if r.outcome.fast then compiled else compiled + 1, Max(longest, r.shape.seqLen))
    }
  }

  function TallyOf(runs: seq<ShapeRun>): Tally { Tally(Warmed(runs), Fresh(runs), LongestWarmed(runs)) }

  lemma TallyGrows(runs: seq<ShapeRun>, r: ShapeRun)
    ensures TallyOf(runs + [r]) == TallyOf(runs).Add(r)
  {
    assert (runs + [r])[..|runs|] == runs;
  }

  predicate AllFast(runs: seq<ShapeRun>) { forall i :: 0 <= i < |runs| ==> FastHit(runs[i].outcome) }

  predicate AllSucceed(runs: seq<ShapeRun>) { forall i :: 0 <= i < |runs| ==> runs[i].outcome.succeeded }

  /** Everything compiled or hit so far is covered. */
  predicate SuccessesInside(box: Option<Box>, runs: seq<ShapeRun>) {
    forall i :: 0 <= i < |runs| && runs[i].outcome.succeeded ==> Inside(box, runs[i].shape)
  }

  /** The shapes not already run as coverage checks. */
  function Without(shapes: seq<Shape>, check: seq<Shape>): seq<Shape> {
    if shapes == [] then []
    else
      var last, front := shapes[|shapes| - 1], Without(shapes[..|shapes| - 1], check);
      if last in check then front else front + [last]
  }

  /** One more run, as both loops see it. */
  method RunOne(session: Session, s: Shape, ghost runs: seq<ShapeRun>, t: Tally) returns (o: RunOutcome, t': Tally)
    requires t == TallyOf(runs) && SuccessesInside(session.profile, runs)
    modifies session
    ensures session.runs == old(session.runs) + [ShapeRun(s, o)]
    ensures t' == TallyOf(runs + [ShapeRun(s, o)])
    ensures SuccessesInside(session.profile, runs + [ShapeRun(s, o)])
    ensures o.succeeded == session.environment(|old(session.runs)|).succeeds
    ensures o.succeeded ==> (o.fast <==> Inside(old(session.profile), s))
    ensures FastHit(o) ==> session.profile == old(session.profile)
  {
    o := session.RunWarmupShape(s);
    t' := t.Add(ShapeRun(s, o));
    TallyGrows(runs, ShapeRun(s, o));
  }

  method CheckPhase(session: Session, check: seq<Shape>) returns (t: Tally, allFast: bool, runs: seq<ShapeRun>)
    modifies session
    ensures session.runs == old(session.runs) + runs && Shapes(runs) == check
    ensures t == TallyOf(runs) && SuccessesInside(session.profile, runs)
    ensures allFast <==> check != [] && AllFast(runs)
    ensures allFast ==> session.profile == old(session.profile)
    ensures check != [] && AllInside(old(session.profile), check) && AllSucceed(runs) ==> allFast
  {
    t, runs := Tally(0, 0, 0), [];
    allFast := check != [];
    assert check[..0] == [] == Shapes([]) && AllFast([]);
    NoRunsYet(session.profile);
    hide TallyOf, SuccessesInside, Inside, Shapes, AllFast, AllSucceed;
    for k := 0 to |check|
      invariant |runs| == k && session.runs == old(session.runs) + runs && Shapes(runs) == check[..k]
      invariant t == TallyOf(runs) && SuccessesInside(session.profile, runs)
      invariant allFast <==> check != [] && AllFast(runs)
      invariant allFast ==> session.profile == old(session.profile)
      invariant check != [] && AllInside(old(session.profile), check) && AllSucceed(runs) ==> allFast
    {
      var o;
      o, t := RunOne(session, check[k], runs, t);
      OneMoreRun(runs, ShapeRun(check[k], o));
      runs := runs + [ShapeRun(check[k], o)];
      if !FastHit(o) {
        allFast := false;
      }
    }
  }

  lemma NoRunsYet(profile: Option<Box>)
    ensures TallyOf([]) == Tally(0, 0, 0) && SuccessesInside(profile, [])
  {}

  lemma OneMoreRun(runs: seq<ShapeRun>, r: ShapeRun)
    ensures Shapes(runs + [r]) == Shapes(runs) + [r.shape]
    ensures AllFast(runs + [r]) <==> AllFast(runs) && FastHit(r.outcome)
    ensures AllSucceed(runs + [r]) <==> AllSucceed(runs) && r.outcome.succeeded
  {
    assert (runs + [r])[|runs|] == r;
    assert forall i :: 0 <= i < |runs| ==> (runs + [r])[i] == runs[i];
  }

  /** Cold cache, or some extreme was slow: runs every shape not already run as a check. */
  method CompilePhase(session: Session, shapes: seq<Shape>, check: seq<Shape>, ghost before: seq<ShapeRun>, t: Tally)
    returns (t': Tally, runs: seq<ShapeRun>)
    requires t == TallyOf(before) && SuccessesInside(session.profile, before)
    modifies session
    ensures session.runs == old(session.runs) + runs && Shapes(runs) == Without(shapes, check)
    ensures t' == TallyOf(before + runs) && SuccessesInside(session.profile, before + runs)
  {
    t', runs := t, [];
    assert before + runs == before;
    for k := 0 to |shapes|
      invariant session.runs == old(session.runs) + runs && Shapes(runs) == Without(shapes[..k], check)
      invariant t' == TallyOf(before + runs) && SuccessesInside(session.profile, before + runs)
    {
      assert shapes[..k + 1][..k] == shapes[..k];
      if shapes[k] in check {
        continue;
      }
      var o;
      o, t' := RunOne(session, shapes[k], before + runs, t');
      assert before + runs + [ShapeRun(shapes[k], o)] == before + (runs + [ShapeRun(shapes[k], o)]);
      runs := runs + [ShapeRun(shapes[k], o)];
    }
    assert shapes[..|shapes|] == shapes;
  }

  /** What a sweep over the shard promises, given the runs it made and its check shapes. */
  ghost predicate SweepAccounted(shapes: seq<Shape>, check: seq<Shape>, runs: seq<ShapeRun>, stats: PrewarmStats) {
    && Shapes(runs) == check + (if stats.fullyCached then [] else Without(shapes, check))
    && stats.warmed == Warmed(runs) && stats.freshCompiles == Fresh(runs) && stats.maxWarmedSeq == LongestWarmed(runs)
    && (stats.fullyCached <==> check != [] && AllFast(runs))
    && (!stats.fullyCached ==> stats.skipped == 0)
  }

  /** Check shapes are worth running only when plans for this GPU are already on disk. */
  method ChooseChecks(shapes: seq<Shape>, enginesBefore: nat, ghost profile: Option<Box>) returns (check: seq<Shape>)
    requires shapes != []
    ensures if enginesBefore > 0 then Represents(check, shapes) else check == []
    ensures check != [] <==> enginesBefore > 0
    ensures check != [] ==> (AllInside(profile, check) <==> AllInside(profile, shapes))
  {
    check := [];
    if enginesBefore > 0 {
      check := CoverageCheckShapes(shapes);
      ExtremesDecideCoverage(profile, check, shapes);
    }
  }

  /** What a sweep promises, given the profile before and after it, its check shapes and its runs:
      every run is accounted for, everything that ran successfully is covered, and the shard is
      declared cached only when it really is, and always when it is and the checks succeed. */
  ghost predicate Prewarmed(shapes: seq<Shape>, enginesBefore: nat, before: Option<Box>, after: Option<Box>,
                            check: seq<Shape>, runs: seq<ShapeRun>, stats: PrewarmStats) {
    && (if enginesBefore > 0 then Represents(check, shapes) else check == [])
    && SweepAccounted(shapes, check, runs, stats)
    && SuccessesInside(after, runs)
    && (stats.fullyCached ==> CachedForReal(after, shapes, stats) && after == before)
    && (enginesBefore > 0 && shapes != [] && AllInside(before, shapes) && AllSucceed(runs) ==> stats.fullyCached)
  }

  /** trt_prewarm: with plans on disk the at most four extreme shapes are tried first; the shard is
      declared cached exactly when all of them were fast, and then it really is. */
  method TrtPrewarm(session: Session, shapes: seq<Shape>, enginesBefore: nat)
    returns (stats: PrewarmStats, check: seq<Shape>, runs: seq<ShapeRun>)
    modifies session
    ensures session.runs == old(session.runs) + runs
    ensures Prewarmed(shapes, enginesBefore, old(session.profile), session.profile, check, runs, stats)
  {
    if shapes == [] {
      EmptySweep(enginesBefore, session.profile);
      return PrewarmStats(0, false, 0, 0, 0), [], [];
    }
    var checkShapes := ChooseChecks(shapes, enginesBefore, session.profile);
    check := checkShapes;
    stats, runs := RunShard(session, shapes, enginesBefore, checkShapes);
  }

  /** The two phases over a non-empty shard with its check shapes chosen. */
  method RunShard(session: Session, shapes: seq<Shape>, ghost enginesBefore: nat, checkShapes: seq<Shape>)
    returns (stats: PrewarmStats, runs: seq<ShapeRun>)
    requires if enginesBefore > 0 then Represents(checkShapes, shapes) else checkShapes == []
    requires checkShapes != [] <==> enginesBefore > 0
    requires checkShapes != [] ==> (AllInside(session.profile, checkShapes) <==> AllInside(session.profile, shapes))
    modifies session
    ensures session.runs == old(session.runs) + runs
    ensures Prewarmed(shapes, enginesBefore, old(session.profile), session.profile, checkShapes, runs, stats)
  {
    hide Prewarmed, AllInside, AllFast, SuccessesInside, AllSucceed, Shapes, TallyOf, Represents, Without;
    var t, allChecksFast;
    t, allChecksFast, runs := CheckPhase(session, checkShapes);
    if allChecksFast {
      var skipped := if |shapes| < |checkShapes| then 0 else |shapes| - |checkShapes|;
      stats := PrewarmStats(t.warmed, true, skipped, t.compiled, t.longest);
      CachedSweep(shapes, enginesBefore, session.profile, checkShapes, runs, t);
    } else {
      var checked := runs;
      var more;
      t, more := CompilePhase(session, shapes, checkShapes, checked, t);
      runs := checked + more;
      stats := PrewarmStats(t.warmed, false, 0, t.compiled, t.longest);
      FullSweep(shapes, enginesBefore, old(session.profile), session.profile, checkShapes, checked, more, t);
      Associate(old(session.runs), checked, more);
    }
  }

  lemma Associate(a: seq<ShapeRun>, b: seq<ShapeRun>, c: seq<ShapeRun>)
    ensures a + b + c == a + (b + c)
  {}

  lemma EmptySweep(enginesBefore: nat, profile: Option<Box>)
    ensures Prewarmed([], enginesBefore, profile, profile, [], [], PrewarmStats(0, false, 0, 0, 0))
  {}

  lemma CachedSweep(shapes: seq<Shape>, enginesBefore: nat, profile: Option<Box>, check: seq<Shape>, runs: seq<ShapeRun>, t: Tally)
    requires enginesBefore > 0 && Represents(check, shapes) && check != []
    requires Shapes(runs) == check && AllFast(runs) && SuccessesInside(profile, runs) && t == TallyOf(runs)
    ensures var skipped := if |shapes| < |check| then 0 else |shapes| - |check|;
      Prewarmed(shapes, enginesBefore, profile, profile, check, runs, PrewarmStats(t.warmed, true, skipped, t.compiled, t.longest))
  {
    var skipped := if |shapes| < |check| then 0 else |shapes| - |check|;
    CachedRuns(profile, shapes, check, runs, PrewarmStats(t.warmed, true, skipped, t.compiled, t.longest));
    hide Represents, SweepAccounted, SuccessesInside, CachedForReal;
  }

  lemma FullSweep(shapes: seq<Shape>, enginesBefore: nat, before: Option<Box>, after: Option<Box>, check: seq<Shape>,
                  checked: seq<ShapeRun>, more: seq<ShapeRun>, t: Tally)
    requires if enginesBefore > 0 then Represents(check, shapes) else check == []
    requires check != [] <==> enginesBefore > 0
    requires check != [] ==> (AllInside(before, check) <==> AllInside(before, shapes))
    requires Shapes(checked) == check && Shapes(more) == Without(shapes, check)
    requires !(check != [] && AllFast(checked))
    requires check != [] && AllInside(before, check) ==> !AllSucceed(checked)
    requires t == TallyOf(checked + more) && SuccessesInside(after, checked + more)
    ensures Prewarmed(shapes, enginesBefore, before, after, check, checked + more,
                      PrewarmStats(t.warmed, false, 0, t.compiled, t.longest))
  {
    var stats := PrewarmStats(t.warmed, false, 0, t.compiled, t.longest);
    FullRuns(before, shapes, check, checked, more, stats);
    hide Represents, SweepAccounted, SuccessesInside, CachedForReal, AllInside, AllSucceed;
  }

  lemma FullRuns(before: Option<Box>, shapes: seq<Shape>, check: seq<Shape>,
                 checked: seq<ShapeRun>, more: seq<ShapeRun>, stats: PrewarmStats)
    requires Shapes(checked) == check && Shapes(more) == Without(shapes, check)
    requires !(check != [] && AllFast(checked))
    requires check != [] && AllInside(before, check) ==> !AllSucceed(checked)
    requires stats == PrewarmStats(Warmed(checked + more), false, 0, Fresh(checked + more), LongestWarmed(checked + more))
    ensures SweepAccounted(shapes, check, checked + more, stats)
    ensures check != [] && AllInside(before, check) ==> !AllSucceed(checked + more)
  {
    assert Shapes(checked + more) == Shapes(checked) + Shapes(more);
    assert check != [] ==> !AllFast(checked);
    assert checked == (checked + more)[..|checked|];
    hide Warmed, Fresh, LongestWarmed;
    if i :| 0 <= i < |checked| && !FastHit(checked[i].outcome) {
      assert !FastHit((checked + more)[i].outcome);
    }
    if i :| 0 <= i < |checked| && !checked[i].outcome.succeeded {
      assert !(checked + more)[i].outcome.succeeded;
    }
  }

  /** The whole shard is covered and accounted for. */
  ghost predicate CachedForReal(profile: Option<Box>, shapes: seq<Shape>, stats: PrewarmStats) {
    && AllInside(profile, shapes)
    && stats.warmed + stats.skipped == |shapes|
    && stats.maxWarmedSeq == MaxSeq(shapes)
    && stats.freshCompiles == 0
  }

  lemma {:induction false} FastTally(runs: seq<ShapeRun>)
    requires AllFast(runs)
    ensures Warmed(runs) == |runs| && Fresh(runs) == 0 && LongestWarmed(runs) == MaxSeq(Shapes(runs))
  {
    if runs != [] {
      FastTally(runs[..|runs| - 1]);
      assert Shapes(runs)[..|runs| - 1] == Shapes(runs[..|runs| - 1]);
    }
  }

  lemma DistinctFits(check: seq<Shape>, shapes: seq<Shape>)
    requires Represents(check, shapes)
    ensures |check| <= |shapes|
  {
    DistinctSetSize(check);
    AtMost(shapes);
    forall s | s in ToSet(check) ensures s in ToSet(shapes) {
      var i :| 0 <= i < |check| && check[i] == s;
    }
    SubsetSize(ToSet(check), ToSet(shapes));
  }

  lemma {:induction false} AtMost(shapes: seq<Shape>)
    ensures |ToSet(shapes)| <= |shapes|
  {
    if shapes != [] {
      AtMost(shapes[1..]);
      assert ToSet(shapes) == {shapes[0]} + ToSet(shapes[1..]);
    }
  }

  lemma CachedRuns(profile: Option<Box>, shapes: seq<Shape>, check: seq<Shape>, runs: seq<ShapeRun>, stats: PrewarmStats)
    requires Represents(check, shapes) && Shapes(runs) == check && AllFast(runs) && SuccessesInside(profile, runs)
    requires stats.warmed == Warmed(runs) && stats.freshCompiles == Fresh(runs) && stats.maxWarmedSeq == LongestWarmed(runs)
    requires stats.skipped == if |shapes| < |check| then 0 else |shapes| - |check|
    requires stats.fullyCached && check != []
    ensures CachedForReal(profile, shapes, stats) && SweepAccounted(shapes, check, runs, stats)
  {
    FastTally(runs);
    ExtremesReachMaximum(check, shapes);
    DistinctFits(check, shapes);
    forall i | 0 <= i < |check| ensures Inside(profile, check[i]) {
      assert check[i] == runs[i].shape && FastHit(runs[i].outcome);
    }
    ExtremesDecideCoverage(profile, check, shapes);
  }

  /** The shapes a full sweep runs are the shard's: none is left out, and no check shape is run a
      second time. */
  lemma {:induction false} WithoutIsTheRest(shapes: seq<Shape>, check: seq<Shape>, s: Shape)
    ensures s in Without(shapes, check) <==> s in shapes && s !in check
    ensures multiset(Without(shapes, check))[s] == if s in check then 0 else multiset(shapes)[s]
  {
    if shapes != [] {
      WithoutIsTheRest(shapes[..|shapes| - 1], check, s);
      assert shapes == shapes[..|shapes| - 1] + [shapes[|shapes| - 1]];
    }
  }

  // ---- A prewarm as the worker sees it ----

  /** One whole call of the prewarm: its shapes, the profile around it, what it ran, what it reports. */
  datatype Sweep = Sweep(shapes: seq<Shape>, enginesBefore: nat, before: Option<Box>, after: Option<Box>,
                         check: seq<Shape>, runs: seq<ShapeRun>, stats: PrewarmStats)

  /** The call behaved as `TrtPrewarm` does. */
  ghost predicate Swept(w: Sweep) {
    Prewarmed(w.shapes, w.enginesBefore, w.before, w.after, w.check, w.runs, w.stats)
  }

  /** The caller's test for having gained coverage. */
  predicate Gained(w: Sweep) { w.stats.warmed > 0 || w.stats.fullyCached }

  /** A prewarm gains coverage exactly when one of its runs succeeded. */
  lemma GainedIff(w: Sweep)
    requires Swept(w)
    ensures Gained(w) <==> exists k :: 0 <= k < |w.runs| && w.runs[k].outcome.succeeded
  {
    WarmedIsPositiveIff(w.runs);
    assert |Shapes(w.runs)| == |w.runs|;
    if w.stats.fullyCached {
      assert w.check != [] && FastHit(w.runs[0].outcome);
    }
  }

  lemma {:induction false} WarmedIsPositiveIff(runs: seq<ShapeRun>)
    ensures Warmed(runs) > 0 <==> exists k :: 0 <= k < |runs| && runs[k].outcome.succeeded
  {
    if runs != [] {
      var front := runs[..|runs| - 1];
      WarmedIsPositiveIff(front);
      assert forall k :: 0 <= k < |front| ==> front[k] == runs[k];
    }
  }

  method Prewarm(session: Session, shapes: seq<Shape>, enginesBefore: nat) returns (w: Sweep)
    modifies session
    ensures Swept(w) && w.shapes == shapes && w.enginesBefore == enginesBefore
    ensures w.before == old(session.profile) && w.after == session.profile && session.runs == old(session.runs) + w.runs
  {
    var before := session.profile;
    var stats, check, runs := TrtPrewarm(session, shapes, enginesBefore);
    w := Sweep(shapes, enginesBefore, before, session.profile, check, runs, stats);
  }

  /** A gaining prewarm of one shape ran just that shape, successfully. */
  lemma SingleSweep(w: Sweep, x: Shape)
    requires Swept(w) && w.shapes == [x] && Gained(w)
    ensures |w.runs| == 1 && w.runs[0].shape == x && w.runs[0].outcome.succeeded
    ensures LongestWarmed(w.runs) == x.seqLen == Max(w.stats.maxWarmedSeq, x.seqLen)
  {
    SingleCheck(w.check, x, w.enginesBefore);
    assert [x][..0] == [];
    assert |Shapes(w.runs)| == |w.runs|;
    assert Shapes(w.runs) == [x];
    hide Prewarmed, Represents;
    assert w.runs == [w.runs[0]];
    assert w.runs[..0] == [] && LongestWarmed([]) == 0 && Warmed([]) == 0;
  }

  lemma SingleCheck(check: seq<Shape>, x: Shape, enginesBefore: nat)
    requires if enginesBefore > 0 then Represents(check, [x]) else check == []
    ensures check + Without([x], check) == [x] && (check == [] || check == [x])
    ensures check == [x] ==> Without([x], check) == []
  {
    assert [x][..0] == [];
    if check != [] {
      DistinctFits(check, [x]);
      assert check[0] in [x];
    }
  }

  /** The profile grown by every successful run. */
  function HullOf(box: Option<Box>, runs: seq<ShapeRun>): Option<Box> {
    if runs == [] then box
    else
      var last, front := runs[|runs| - 1], HullOf(box, runs[..|runs| - 1]);
      if last.outcome.succeeded then Some(Hull(front, last.shape)) else front
  }

  /** The longest sequence a profile covers. */
  function TopSeq(box: Option<Box>): nat { if box.None? then 0 else box.value.maxSeq }

  lemma {:induction false} HullTop(box: Option<Box>, runs: seq<ShapeRun>)
    ensures TopSeq(HullOf(box, runs)) == Max(TopSeq(box), LongestWarmed(runs))
    ensures SuccessesInside(HullOf(box, runs), runs)
  {
    if runs != [] {
      var front, last := runs[..|runs| - 1], runs[|runs| - 1];
      HullTop(box, front);
      HullKeeps(HullOf(box, front), last.shape);
      assert forall i :: 0 <= i < |front| ==> front[i] == runs[i];
    }
  }

  lemma HullKeeps(box: Option<Box>, s: Shape)
    ensures Inside(Some(Hull(box, s)), s)
    ensures forall x :: Inside(box, x) ==> Inside(Some(Hull(box, s)), x)
  {}

  /** Any profile that covers the one before and the shape covers the new one. */
  lemma HullIsLeast(before: Option<Box>, s: Shape, c: Box, x: Shape)
    requires before.Some? ==> c.minBatch <= before.value.minBatch && before.value.maxBatch <= c.maxBatch
    requires before.Some? ==> c.minSeq <= before.value.minSeq && before.value.maxSeq <= c.maxSeq
    requires Inside(Some(c), s) && Inside(Some(Hull(before, s)), x)
    ensures Inside(Some(c), x)
  {}

  lemma {:induction false} HullGrows(box: Option<Box>, runs: seq<ShapeRun>)
    ensures forall x :: Inside(box, x) ==> Inside(HullOf(box, runs), x)
  {
    if runs != [] {
      HullGrows(box, runs[..|runs| - 1]);
      HullKeeps(HullOf(box, runs[..|runs| - 1]), runs[|runs| - 1].shape);
    }
  }

  /** After a sweep each of its shapes is covered by any profile holding the successful runs, unless
      its own run failed. */
  lemma SweptShapesCovered(w: Sweep, box: Option<Box>, x: Shape)
    requires Swept(w) && x in w.shapes && SuccessesInside(box, w.runs)
    ensures Inside(box, x) || exists k :: 0 <= k < |w.runs| && w.runs[k].shape == x && !w.runs[k].outcome.succeeded
  {
    if w.stats.fullyCached {
      CachedChecksInside(w, box);
      ExtremesDecideCoverage(box, w.check, w.shapes);
    } else {
      WithoutIsTheRest(w.shapes, w.check, x);
      assert x in Shapes(w.runs);
    }
  }

  lemma CachedChecksInside(w: Sweep, box: Option<Box>)
    requires Swept(w) && w.stats.fullyCached && SuccessesInside(box, w.runs)
    ensures Represents(w.check, w.shapes) && AllInside(box, w.check)
  {
    assert Shapes(w.runs) == w.check + [];
    forall i | 0 <= i < |w.check| ensures Inside(box, w.check[i]) {
      assert FastHit(w.runs[i].outcome) && w.runs[i].shape == Shapes(w.runs)[i] == w.check[i];
    }
    hide SweepAccounted, Represents, CachedForReal, SuccessesInside;
  }
}
