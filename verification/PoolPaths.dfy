/** Each worker's part of a pool run is a path of its own automaton, so what holds over every
    worker's life holds in every interleaving. */
module PoolPaths {
  import opened Outcomes
  import opened CircuitBreaker
  import opened WorkerLoop
  import opened WorkerPool

  /** The actions of worker w in a run; init's spawning of it is the first. */
  ghost function Project(cs: seq<WorkerConfig>, steps: seq<Step>, w: nat): seq<Action> {
    if steps == [] then []
    else
      var front, step := steps[..|steps| - 1], steps[|steps| - 1];
      var before := Project(cs, front, w);
      if step.Act? && step.worker == w then before + [step.action]
      else if step.SpawnNext? && Run(cs, front).Some? && Run(cs, front).value.init == Spawning(w) then before + [Spawn]
      else before
  }

  lemma WorkerMoves(cs: seq<WorkerConfig>, s: Pool, step: Step, w: nat)
    requires |cs| == |s.workers| && w < |cs| && After(cs, s, step).Some?
    ensures var p := After(cs, s, step).value.workers[w];
      if step.Act? && step.worker == w then Next(cs[w], s.workers[w], step.action) == Some(p)
      else if step.SpawnNext? && s.init == Spawning(w) then Next(cs[w], s.workers[w], Spawn) == Some(p)
      else p == s.workers[w]
  {
    hide FatesAfter, RepliesAfter, RaisesAfter, CeilingAfter, LiveAfter, LoadedAfter, SignalsAfter, HullAfter;
  }

  lemma {:induction false} ProjectionIsPath(cs: seq<WorkerConfig>, steps: seq<Step>, w: nat)
    requires Run(cs, steps).Some? && w < |cs|
    ensures Path(cs[w], Project(cs, steps, w)) == Some(Run(cs, steps).value.workers[w])
  {
    if steps != [] {
      var front, step := steps[..|steps| - 1], steps[|steps| - 1];
      ProjectionIsPath(cs, front, w);
      WorkerMoves(cs, Run(cs, front).value, step, w);
      var before := Project(cs, front, w);
      if step.Act? && step.worker == w {
        PathGrows(cs[w], before, step.action);
      } else {
        PathGrows(cs[w], before, Spawn);
      }
      hide Next, After, Path;
    }
  }

  /** In every interleaving each worker's failure counter is the trailing errors of its own erased
      history modulo the threshold, and stays below it. */
  lemma CounterInEveryRun(cs: seq<WorkerConfig>, steps: seq<Step>, w: nat)
    requires Run(cs, steps).Some? && w < |cs| && cs[w].threshold >= 1
    requires Failures(Run(cs, steps).value.workers[w]).Some?
    ensures var failures := Failures(Run(cs, steps).value.workers[w]).value;
      failures == TrailingErrors(Erased(Verdicts(Project(cs, steps, w)))) % cs[w].threshold
      && failures < cs[w].threshold
  {
    ProjectionIsPath(cs, steps, w);
    CounterOverLife(cs[w], Project(cs, steps, w));
  }

  /** In every interleaving each worker's end has the same explanation. */
  lemma EndsExplainedInEveryRun(cs: seq<WorkerConfig>, steps: seq<Step>, w: nat)
    requires Run(cs, steps).Some? && w < |cs|
    ensures Explained(Project(cs, steps, w), Run(cs, steps).value.workers[w])
  {
    ProjectionIsPath(cs, steps, w);
    hide Run, Project, Explained;
    EndsExplained(cs[w], Project(cs, steps, w));
  }

  /** The models are dropped after a reply exactly when it completes a run of threshold errors. */
  lemma BreakerInEveryRun(cs: seq<WorkerConfig>, steps: seq<Step>, w: nat, r: Request, v: Verdict)
    requires Run(cs, steps).Some? && w < |cs| && cs[w].threshold >= 1
    requires After(cs, Run(cs, steps).value, Act(w, Reply(r, v))).Some?
    ensures After(cs, Run(cs, steps).value, Act(w, Reply(r, v))).value.workers[w].Breaking? <==>
      var run := TrailingErrors(Erased(Verdicts(Project(cs, steps, w) + [Reply(r, v)])));
      r.kind.Client? && v.Counted() && run > 0 && run % cs[w].threshold == 0
  {
    ProjectionIsPath(cs, steps, w);
    WorkerMoves(cs, Run(cs, steps).value, Act(w, Reply(r, v)), w);
    PathGrows(cs[w], Project(cs, steps, w), Reply(r, v));
    hide Next, After, Path, Run, Project;
    BreakerOverLife(cs[w], Project(cs, steps, w), r, v);
  }
}
