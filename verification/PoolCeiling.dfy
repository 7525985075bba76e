/** The warmed-sequence ceiling over whole runs: what it equals, what startup brings it to, and what
    the admission guard may conclude from it. */
module PoolCeiling {
  import opened Numbers
  import opened Outcomes
  import opened TrtWarmup
  import opened WorkerLoop
  import opened WorkerPool
  import opened PoolInit
  import opened JitGuard
  import Shapes = WarmupShapes

  // ---- The ceiling is the top of everything warmed ----

  /** Whatever the worker was doing, it folds in the longest sequence its prewarm really ran. */
  lemma FoldsLongestWarmed(cfg: WorkerConfig, p: Phase, w: Sweep)
    requires MayRaise(cfg, p, w)
    ensures Folded(p, w) == LongestWarmed(w.runs)
  {
    if p.Head? || p.Busy? {
      SingleSweep(w, w.shapes[0]);
    }
  }

  ghost predicate CeilingExact(s: Pool) {
    && s.ceiling == TopSeq(s.hull)
    && forall i :: 0 <= i < |s.raises| ==> Swept(s.raises[i].sweep) && SuccessesInside(s.hull, s.raises[i].sweep.runs)
  }

  lemma OnlyRaisesMove(cs: seq<WorkerConfig>, s: Pool, step: Step)
    requires |cs| == |s.workers| && After(cs, s, step).Some?
    ensures var s' := After(cs, s, step).value;
      if step.Act? && step.action.RaiseCeiling? then
        var w, p := step.action.sweep, s.workers[step.worker];
        && MayRaise(cs[step.worker], p, w)
        && s'.ceiling == Max(s.ceiling, Folded(p, w)) && s'.hull == HullOf(s.hull, w.runs)
        && s'.raises == s.raises + [Raise(step.worker, p.Loaded?, w)]
      else s'.ceiling == s.ceiling && s'.hull == s.hull && s'.raises == s.raises
  {
    hide FatesAfter, RepliesAfter, LiveAfter, LoadedAfter, SignalsAfter, MayRaise, Folded, HullOf;
  }

  lemma StepKeepsCeiling(cs: seq<WorkerConfig>, s: Pool, step: Step)
    requires |cs| == |s.workers| && CeilingExact(s) && After(cs, s, step).Some?
    ensures CeilingExact(After(cs, s, step).value)
  {
    OnlyRaisesMove(cs, s, step);
    if step.Act? && step.action.RaiseCeiling? {
      var w := step.action.sweep;
      FoldsLongestWarmed(cs[step.worker], s.workers[step.worker], w);
      HullTop(s.hull, w.runs);
      HullGrows(s.hull, w.runs);
      assert Swept(w);
    }
    hide After, Swept, MayRaise, Folded, HullOf, TopSeq, LongestWarmed, Inside;
  }

  /** At every point of every run the ceiling is the longest sequence of the range of all shapes that
      startup, propagation and adaptive compiles have successfully warmed, in whatever order the
      workers fold theirs in, and that range holds every one of those shapes. */
  lemma {:induction false} CeilingIsTopOfWarmed(cs: seq<WorkerConfig>, steps: seq<Step>)
    requires Run(cs, steps).Some?
    ensures CeilingExact(Run(cs, steps).value)
  {
    if steps != [] {
      CeilingIsTopOfWarmed(cs, steps[..|steps| - 1]);
      hide CeilingExact, After;
      StepKeepsCeiling(cs, Run(cs, steps[..|steps| - 1]).value, steps[|steps| - 1]);
    }
  }

  // ---- Startup ----

  /** Has folded its startup prewarm into the ceiling. */
  predicate StartedWarm(cfg: WorkerConfig, p: Phase) {
    cfg.Prewarms() && (p == Loaded(true) || Signalled(p))
  }

  /** Raise i is worker w's startup prewarm of its shard. */
  ghost predicate IsStartupOf(cs: seq<WorkerConfig>, s: Pool, w: nat, i: nat)
    requires w < |cs|
  {
    i < |s.raises| && s.raises[i].worker == w && s.raises[i].startup && s.raises[i].sweep.shapes == cs[w].shard
  }

  ghost predicate StartupsRecorded(cs: seq<WorkerConfig>, s: Pool)
    requires |cs| == |s.workers|
  {
    forall w :: 0 <= w < |cs| && StartedWarm(cs[w], s.workers[w]) ==> exists i: nat :: IsStartupOf(cs, s, w, i)
  }

  lemma StartsByRaising(cfg: WorkerConfig, p: Phase, a: Action)
    requires Next(cfg, p, a).Some? && StartedWarm(cfg, Next(cfg, p, a).value) && !StartedWarm(cfg, p)
    ensures a.RaiseCeiling? && p.Loaded? && a.sweep.shapes == cfg.shard
  {
    hide Swept;
  }

  lemma SpawnIsNotWarm(cs: seq<WorkerConfig>, s: Pool, step: Step, w: nat)
    requires |cs| == |s.workers| && w < |cs| && After(cs, s, step).Some? && !(step.Act? && step.worker == w)
    ensures StartedWarm(cs[w], After(cs, s, step).value.workers[w]) ==> StartedWarm(cs[w], s.workers[w])
  {
    hide FatesAfter, RepliesAfter, LiveAfter, LoadedAfter, SignalsAfter, CeilingAfter, RaisesAfter, HullAfter, Next;
  }

  lemma ActMovesWorker(cs: seq<WorkerConfig>, s: Pool, w: nat, a: Action)
    requires |cs| == |s.workers| && ActStep(cs, s, w, a).Some?
    ensures Next(cs[w], s.workers[w], a) == Some(ActStep(cs, s, w, a).value.workers[w])
  {
    hide FatesAfter, RepliesAfter, LiveAfter, LoadedAfter, SignalsAfter, CeilingAfter, RaisesAfter, HullAfter;
  }

  lemma StepKeepsStartups(cs: seq<WorkerConfig>, s: Pool, step: Step)
    requires |cs| == |s.workers| && StartupsRecorded(cs, s) && After(cs, s, step).Some?
    ensures StartupsRecorded(cs, After(cs, s, step).value)
  {
    var s' := After(cs, s, step).value;
    OnlyRaisesMove(cs, s, step);
    hide MayRaise, Folded, HullOf;
    forall w | 0 <= w < |cs| && StartedWarm(cs[w], s'.workers[w]) ensures exists i: nat :: IsStartupOf(cs, s', w, i) {
      if StartedWarm(cs[w], s.workers[w]) {
        var i: nat :| IsStartupOf(cs, s, w, i);
        assert IsStartupOf(cs, s', w, i);
      } else if step.Act? && step.worker == w {
        ActMovesWorker(cs, s, w, step.action);
        StartsByRaising(cs[w], s.workers[w], step.action);
        assert IsStartupOf(cs, s', w, |s.raises|);
      } else {
        SpawnIsNotWarm(cs, s, step, w);
      }
    }
  }

  lemma {:induction false} StartupsAreRecorded(cs: seq<WorkerConfig>, steps: seq<Step>)
    requires Run(cs, steps).Some?
    ensures StartupsRecorded(cs, Run(cs, steps).value)
  {
    if steps != [] {
      StartupsAreRecorded(cs, steps[..|steps| - 1]);
      hide StartupsRecorded, After;
      StepKeepsStartups(cs, Run(cs, steps[..|steps| - 1]).value, steps[|steps| - 1]);
    }
  }

  /** TensorRT workers configured with the stride shards of one grid. */
  predicate Sharded(cs: seq<WorkerConfig>, grid: seq<Shapes.Shape>) {
    forall w :: 0 <= w < |cs| ==> cs[w].tensorRt && cs[w].shard == Shapes.Shard(grid, w, |cs|)
  }

  /** A startup prewarm ran the shape and failed. */
  ghost predicate FailedAtStartup(s: Pool, x: Shapes.Shape) {
    exists i, k :: 0 <= i < |s.raises| && s.raises[i].startup && FailedRun(s.raises[i].sweep, k, x)
  }

  ghost predicate FailedRun(w: Sweep, k: int, x: Shapes.Shape) {
    0 <= k < |w.runs| && w.runs[k].shape == x && !w.runs[k].outcome.succeeded
  }

  /** Once initialisation is done every shape of the grid is inside the warmed range, whether it was
      run or skipped as cached, unless its own startup run failed; shards may be empty. */
  lemma StartupCoversGrid(cs: seq<WorkerConfig>, steps: seq<Step>, grid: seq<Shapes.Shape>, x: Shapes.Shape)
    requires ValidConfig(cs) && Run(cs, steps).Some? && Run(cs, steps).value.init.Done?
    requires Sharded(cs, grid) && x in grid
    ensures Inside(Run(cs, steps).value.hull, x) || FailedAtStartup(Run(cs, steps).value, x)
  {
    AlwaysInOrder(cs, steps);
    CeilingIsTopOfWarmed(cs, steps);
    StartupsAreRecorded(cs, steps);
    var s := Run(cs, steps).value;
    hide Run, Inside, CeilingExact, StartupsRecorded, Shapes.Shard;
    var at :| 0 <= at < |grid| && grid[at] == x;
    var owner := Shapes.ShapeHasOwner(grid, |cs|, at);
    ShardCovered(cs, s, owner, x);
  }

  lemma ShardCovered(cs: seq<WorkerConfig>, s: Pool, owner: nat, x: Shapes.Shape)
    requires |cs| == |s.workers| && CeilingExact(s) && StartupsRecorded(cs, s)
    requires owner < |cs| && cs[owner].tensorRt && x in cs[owner].shard && Signalled(s.workers[owner])
    ensures Inside(s.hull, x) || FailedAtStartup(s, x)
  {
    assert StartedWarm(cs[owner], s.workers[owner]);
    var i: nat :| IsStartupOf(cs, s, owner, i);
    var w := s.raises[i].sweep;
    hide Inside, Swept, SuccessesInside;
    SweptShapesCovered(w, s.hull, x);
    if k :| 0 <= k < |w.runs| && w.runs[k].shape == x && !w.runs[k].outcome.succeeded {
      assert FailedRun(w, k, x);
    }
  }

  /** So initialisation reconstructs the whole grid's longest sequence from the shards unless every
      longest shape failed: a tier stays uncovered only if it failed. */
  lemma StartupReachesGridMaximum(cs: seq<WorkerConfig>, steps: seq<Step>, grid: seq<Shapes.Shape>)
    requires ValidConfig(cs) && Run(cs, steps).Some? && Run(cs, steps).value.init.Done?
    requires Sharded(cs, grid)
    ensures var s := Run(cs, steps).value;
      forall x :: x in grid && !FailedAtStartup(s, x) ==> x.seqLen <= s.ceiling
    ensures var s := Run(cs, steps).value;
      s.ceiling >= Shapes.MaxSeq(grid) || forall x :: x in grid && x.seqLen == Shapes.MaxSeq(grid) ==> FailedAtStartup(s, x)
  {
    var s := Run(cs, steps).value;
    CeilingIsTopOfWarmed(cs, steps);
    hide Run, Sharded, FailedAtStartup;
    forall x | x in grid && !FailedAtStartup(s, x) ensures x.seqLen <= s.ceiling {
      StartupCoversGrid(cs, steps, grid, x);
    }
  }

  // ---- Admission ----

  /** No step lowers the ceiling, so a shape once admitted stays admitted. */
  lemma AdmissionNeverWithdrawn(cs: seq<WorkerConfig>, s: Pool, step: Step, guardSeq: nat, batch: nat, seqLen: nat)
    requires |cs| == |s.workers| && After(cs, s, step).Some?
    requires TrtJitGuard(guardSeq, s.ceiling).Admit(batch, seqLen).Pass?
    ensures TrtJitGuard(guardSeq, After(cs, s, step).value.ceiling).Admit(batch, seqLen).Pass?
  {
    OnlyRaisesMove(cs, s, step);
    AdmissionMonotone(guardSeq, s.ceiling, After(cs, s, step).value.ceiling, batch, seqLen);
  }

  predicate SeqInside(box: Option<Box>, seqLen: nat) {
    box.Some? && box.value.minSeq <= seqLen <= box.value.maxSeq
  }

  /** Every length the guard both watches and admits lies in the range of what has been warmed. */
  ghost predicate AdmitsOnlyWarmed(guardSeq: nat, s: Pool) {
    forall batch, seqLen ::
      seqLen >= guardSeq && TrtJitGuard(guardSeq, s.ceiling).Admit(batch, seqLen).Pass? ==> SeqInside(s.hull, seqLen)
  }

  /** At every point of every run the guard admits only warmed lengths exactly when the warmed range
      reaches down to the guard's own threshold, or the ceiling lies below it and nothing watched
      is admitted at all. */
  lemma AdmittedIsWarmedIff(cs: seq<WorkerConfig>, steps: seq<Step>, guardSeq: nat)
    requires Run(cs, steps).Some?
    ensures var s := Run(cs, steps).value;
      AdmitsOnlyWarmed(guardSeq, s) <==>
        s.ceiling < guardSeq || (s.hull.Some? && s.hull.value.minSeq <= guardSeq)
  {
    CeilingIsTopOfWarmed(cs, steps);
    var s := Run(cs, steps).value;
    hide Run, CeilingExact;
    assert s.ceiling == TopSeq(s.hull) by {
      CeilingExactMeans(s);
    }
    if guardSeq <= s.ceiling {
      assert TrtJitGuard(guardSeq, s.ceiling).Admit(1, guardSeq).Pass?;
      if s.hull.Some? && guardSeq < s.hull.value.minSeq {
        assert !SeqInside(s.hull, guardSeq);
      }
    }
  }

  lemma CeilingExactMeans(s: Pool)
    requires CeilingExact(s)
    ensures s.ceiling == TopSeq(s.hull)
  {}

  /** One shape at or below the threshold, warmed by anyone, is enough. */
  lemma WarmedBelowThresholdSuffices(cs: seq<WorkerConfig>, steps: seq<Step>, guardSeq: nat, i: nat, k: nat)
    requires Run(cs, steps).Some? && i < |Run(cs, steps).value.raises|
    requires k < |Run(cs, steps).value.raises[i].sweep.runs|
    requires var r := Run(cs, steps).value.raises[i].sweep.runs[k]; r.outcome.succeeded && r.shape.seqLen <= guardSeq
    ensures AdmitsOnlyWarmed(guardSeq, Run(cs, steps).value)
  {
    CeilingIsTopOfWarmed(cs, steps);
    AdmittedIsWarmedIff(cs, steps, guardSeq);
    var s := Run(cs, steps).value;
    assert SuccessesInside(s.hull, s.raises[i].sweep.runs);
    hide Run, AdmitsOnlyWarmed;
    assert Inside(s.hull, s.raises[i].sweep.runs[k].shape);
  }
}
