/** Leader-follower initialisation: workers load strictly one at a time. */
module PoolInit {
  import opened WorkerLoop
  import opened WorkerPool

  /** In startup_worker, before any signal. */
  predicate Starting(p: Phase) { p.Loading? || p.Loaded? }

  predicate StartFailed(p: Phase) { p.StartupFailed? || p == Exited(StartupError) }

  /** Has sent its success signal. */
  predicate Signalled(p: Phase) { !p.Absent? && !Starting(p) && !StartFailed(p) }

  predicate AllSignalled(ws: seq<Phase>, i: nat) {
    i <= |ws| && forall j :: 0 <= j < i ==> Signalled(ws[j])
  }

  predicate NoneSpawned(ws: seq<Phase>, i: nat) {
    forall j :: i <= j < |ws| ==> ws[j].Absent?
  }

  /** The channel against the awaited worker: nothing, its success, or its failure. */
  predicate Consistent(p: Phase, ready: seq<Signal>, i: nat) {
    || (Starting(p) && ready == [])
    || (Signalled(p) && |ready| == 1 && ready[0].Up? && ready[0].id == i)
    || (StartFailed(p) && (ready == [] || ready == [Down(i)]))
  }

  /** How far initialisation has come, and what that says about every worker and the channel. */
  predicate InOrder(s: Pool) {
    match s.init
    case Spawning(i) => AllSignalled(s.workers, i) && NoneSpawned(s.workers, i) && s.ready == [] && |s.deltas| == i
    case Awaiting(i) =>
      && i < |s.workers| && AllSignalled(s.workers, i) && NoneSpawned(s.workers, i + 1)
      && Consistent(s.workers[i], s.ready, i) && |s.deltas| == i
    case Counting(i, _) =>
      i < |s.workers| && AllSignalled(s.workers, i + 1) && NoneSpawned(s.workers, i + 1) && s.ready == [] && |s.deltas| == i
    case Done => AllSignalled(s.workers, |s.workers|) && s.ready == [] && |s.deltas| == |s.workers|
    case InitFailed(i) =>
      && i < |s.workers| && AllSignalled(s.workers, i) && NoneSpawned(s.workers, i + 1)
      && !Starting(s.workers[i]) && !s.workers[i].Absent? && |s.ready| <= 1 && |s.deltas| == i
  }

  lemma StageNext(cfg: WorkerConfig, p: Phase, a: Action)
    requires Next(cfg, p, a).Some? && !a.Spawn?
    ensures var q := Next(cfg, p, a).value;
      && !p.Absent? && !q.Absent?
      && (Signalled(p) ==> Signalled(q) && !a.SendReady? && !a.SendLoadError?)
      && (StartFailed(p) ==> StartFailed(q) && !a.SendReady? && !a.SendLoadError?)
      && (Starting(p) && a.SendReady? ==> Signalled(q))
      && (Starting(p) && a.SendLoadError? ==> StartFailed(q))
      && (Starting(p) && !a.SendReady? && !a.SendLoadError? ==> Starting(q) || StartFailed(q))
  {}

  lemma ActMovesStage(cs: seq<WorkerConfig>, s: Pool, w: nat, a: Action)
    requires |cs| == |s.workers| && ActStep(cs, s, w, a).Some?
    ensures !a.Spawn? && w < |s.workers| && Next(cs[w], s.workers[w], a).Some?
    ensures var s' := ActStep(cs, s, w, a).value;
      && s'.workers == s.workers[w := Next(cs[w], s.workers[w], a).value]
      && s'.init == s.init && s'.deltas == s.deltas && s'.ready == SignalsAfter(s.ready, w, a)
  {
    hide Next;
  }

  lemma ActKeepsOrder(cs: seq<WorkerConfig>, s: Pool, w: nat, a: Action)
    requires |cs| == |s.workers| && InOrder(s) && ActStep(cs, s, w, a).Some?
    ensures InOrder(ActStep(cs, s, w, a).value)
  {
    ActMovesStage(cs, s, w, a);
    StageNext(cs[w], s.workers[w], a);
    hide Next, Signalled, Starting, StartFailed, ActStep;
    StagesApart(s.workers[w]);
  }

  lemma StagesApart(p: Phase)
    ensures Signalled(p) ==> !Starting(p) && !StartFailed(p) && !p.Absent?
    ensures Starting(p) ==> !StartFailed(p) && !p.Absent?
    ensures StartFailed(p) ==> !p.Absent?
    ensures p.Absent? || Starting(p) || StartFailed(p) || Signalled(p)
  {}

  lemma InitKeepsOrder(s: Pool, step: Step)
    requires InOrder(s) && InitStep(s, step).Some?
    ensures InOrder(InitStep(s, step).value)
  {
    if s.init.Awaiting? {
      StagesApart(s.workers[s.init.id]);
    }
  }

  lemma ClientKeepsOrder(s: Pool, step: Step)
    requires InOrder(s) && ClientStep(s, step).Some?
    ensures InOrder(ClientStep(s, step).value)
  {}

  lemma {:induction false} AlwaysInOrder(cs: seq<WorkerConfig>, steps: seq<Step>)
    requires ValidConfig(cs) && Run(cs, steps).Some?
    ensures InOrder(Run(cs, steps).value)
  {
    if steps != [] {
      var front, step := steps[..|steps| - 1], steps[|steps| - 1];
      AlwaysInOrder(cs, front);
      var s := Run(cs, front).value;
      hide InOrder, ActStep, InitStep;
      if step.Act? {
        ActKeepsOrder(cs, s, step.worker, step.action);
      } else if step.Submit? || step.CloseChannel? || step.DropReceiver? {
        ClientKeepsOrder(s, step);
      } else {
        InitKeepsOrder(s, step);
      }
    }
  }
}
