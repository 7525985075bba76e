/** What every run of the pool guarantees about loading, the two counters and initialisation. */
module PoolSafety {
  import opened Numbers
  import opened Outcomes
  import opened CircuitBreaker
  import opened WorkerLoop
  import opened WorkerPool
  import opened PoolCounters
  import opened PoolInit

  // ---- Initialisation ----

  /** At most one worker is loading, and only while init waits for exactly that worker. */
  lemma OneLoadsAtATime(cs: seq<WorkerConfig>, steps: seq<Step>, w: nat)
    requires ValidConfig(cs) && Run(cs, steps).Some? && w < |cs|
    ensures var s := Run(cs, steps).value; Starting(s.workers[w]) ==> s.init == Awaiting(w)
  {
    AlwaysInOrder(cs, steps);
    StagesApart(Run(cs, steps).value.workers[w]);
    hide Run, Starting, Signalled, StartFailed;
  }

  /** The signal init takes while waiting for a worker was sent by that worker, and init is never
      left waiting on a worker that has exited: if the worker is past startup, some step of init
      or the worker's own exit is possible. */
  lemma InitNeverStuck(cs: seq<WorkerConfig>, steps: seq<Step>)
    requires ValidConfig(cs) && Run(cs, steps).Some? && Run(cs, steps).value.init.Awaiting?
    ensures var s := Run(cs, steps).value;
      && s.init.id < |cs|
      && (s.ready != [] ==> |s.ready| == 1 && s.ready[0].id == s.init.id)
      && (s.ready == [] ==> Starting(s.workers[s.init.id]) || StartFailed(s.workers[s.init.id]))
      && (!Starting(s.workers[s.init.id]) ==>
            || After(cs, s, TakeSignal).Some?
            || After(cs, s, JoinExited).Some?
            || After(cs, s, Act(s.init.id, Exit)).Some?)
  {
    AlwaysInOrder(cs, steps);
    StagesApart(Run(cs, steps).value.workers[Run(cs, steps).value.init.id]);
    hide Run;
  }

  /** A failed load is known to init: its message is waiting for the init task, or has been taken. */
  predicate FailureKnown(s: Pool, w: nat) {
    s.init == InitFailed(w) || (s.init == Awaiting(w) && s.ready == [Down(w)])
  }

  /** Over every run a worker that failed to load ends the initialisation, and init never waits for
      another. */
  lemma {:induction false} LoadErrorEndsInit(cs: seq<WorkerConfig>, steps: seq<Step>, w: nat)
    requires ValidConfig(cs) && Run(cs, steps).Some? && Act(w, SendLoadError) in steps
    ensures FailureKnown(Run(cs, steps).value, w)
  {
    var front, step := steps[..|steps| - 1], steps[|steps| - 1];
    assert steps == front + [step];
    AlwaysInOrder(cs, front);
    hide Run, InOrder, After, FailureKnown;
    if Act(w, SendLoadError) in front {
      LoadErrorEndsInit(cs, front, w);
      FailureStaysKnown(cs, Run(cs, front).value, step, w);
    } else {
      LoadErrorIsKnown(cs, Run(cs, front).value, w);
    }
    RunNext(cs, steps);
  }

  lemma RunNext(cs: seq<WorkerConfig>, steps: seq<Step>)
    requires Run(cs, steps).Some? && steps != []
    ensures Run(cs, steps[..|steps| - 1]).Some?
    ensures After(cs, Run(cs, steps[..|steps| - 1]).value, steps[|steps| - 1]) == Run(cs, steps)
  {}

  lemma LoadErrorIsKnown(cs: seq<WorkerConfig>, s: Pool, w: nat)
    requires |cs| == |s.workers| && InOrder(s) && After(cs, s, Act(w, SendLoadError)).Some?
    ensures FailureKnown(After(cs, s, Act(w, SendLoadError)).value, w)
  {
    ActMovesStage(cs, s, w, SendLoadError);
    assert s.workers[w].Loading?;
    StagesApart(s.workers[w]);
    hide Next, Signalled, StartFailed, ActStep;
  }

  lemma FailureStaysKnown(cs: seq<WorkerConfig>, s: Pool, step: Step, w: nat)
    requires |cs| == |s.workers| && InOrder(s) && FailureKnown(s, w) && After(cs, s, step).Some?
    ensures FailureKnown(After(cs, s, step).value, w)
  {
    if step.Act? {
      ActMovesStage(cs, s, step.worker, step.action);
      StageNext(cs[step.worker], s.workers[step.worker], step.action);
      StagesApart(s.workers[step.worker]);
    }
    hide Next, Signalled, Starting, StartFailed, ActStep;
  }

  /** Worker i sent the readiness message carrying this measurement. */
  ghost predicate SentReady(steps: seq<Step>, i: nat, delta: nat) {
    Act(i, SendReady(delta)) in steps
  }

  ghost predicate DeltasSent(steps: seq<Step>, s: Pool) {
    && (forall i :: 0 <= i < |s.deltas| ==> SentReady(steps, i, s.deltas[i]))
    && (forall k :: 0 <= k < |s.ready| && s.ready[k].Up? ==> SentReady(steps, s.ready[k].id, s.ready[k].delta))
    && (s.init.Counting? ==> SentReady(steps, s.init.id, s.init.delta))
  }

  lemma {:induction false} DeltasAreSent(cs: seq<WorkerConfig>, steps: seq<Step>)
    requires ValidConfig(cs) && Run(cs, steps).Some?
    ensures DeltasSent(steps, Run(cs, steps).value)
  {
    if steps != [] {
      var front, step := steps[..|steps| - 1], steps[|steps| - 1];
      DeltasAreSent(cs, front);
      AlwaysInOrder(cs, front);
      DeltasStep(cs, front, Run(cs, front).value, step);
      assert front + [step] == steps;
    }
  }

  lemma DeltasStep(cs: seq<WorkerConfig>, front: seq<Step>, s: Pool, step: Step)
    requires |cs| == |s.workers| && InOrder(s) && DeltasSent(front, s) && After(cs, s, step).Some?
    ensures DeltasSent(front + [step], After(cs, s, step).value)
  {
    hide Next, FatesAfter, RepliesAfter, RaisesAfter, CeilingAfter, HullAfter, LiveAfter, LoadedAfter, Signalled, Starting, StartFailed;
  }

  /** Initialisation succeeds only if every worker, in id order, has sent its own success signal. */
  lemma SuccessMeansAllReady(cs: seq<WorkerConfig>, steps: seq<Step>)
    requires ValidConfig(cs) && Run(cs, steps).Some? && Run(cs, steps).value.init.Done?
    ensures var s := Run(cs, steps).value;
      && |s.deltas| == |cs|
      && forall i :: 0 <= i < |cs| ==> Signalled(s.workers[i]) && SentReady(steps, i, s.deltas[i])
  {
    AlwaysInOrder(cs, steps);
    DeltasAreSent(cs, steps);
    hide Run;
  }

  // ---- loaded_workers ----

  lemma AtMostOneUncounted(s: Pool)
    requires InOrder(s)
    ensures Uncounted(s) <= 1 && (s.init.Done? || s.init.Spawning? ==> Uncounted(s) == 0)
  {
    assert |s.ready| <= 1;
    if |s.ready| == 1 {
      assert s.ready[1..] == [] && Ups([]) == 0;
    } else {
      assert s.ready == [];
    }
  }

  /** The counter without wrap-around: the credited workers less the one signal init may still
      have to count, or the largest usize when only that signal's worker was credited and is no more. */
  predicate LoadedValue(s: Pool) {
    var credited := Count(s.workers, Credited);
    && Uncounted(s) <= 1
    && credited <= USIZE_MAX
    && s.loaded == (if credited >= Uncounted(s) then credited - Uncounted(s) else USIZE_MAX)
    && (s.init.Done? ==> s.loaded == credited)
  }

  lemma LoadedUnwrapped(s: Pool)
    requires |s.workers| <= USIZE_MAX && LoadedExact(s) && InOrder(s)
    ensures LoadedValue(s)
  {
    AtMostOneUncounted(s);
    CountBounds(s.workers, Credited);
    hide Credited, InOrder, Count, Uncounted, Wrap;
    WrapBelow(Count(s.workers, Credited), Uncounted(s));
  }

  lemma WrapBelow(c: nat, u: nat)
    requires u <= 1 && c <= USIZE_MAX
    ensures Wrap(c - u) == if c >= u then c - u else USIZE_MAX
  {}

  lemma LoadedIs(cs: seq<WorkerConfig>, steps: seq<Step>)
    requires ValidConfig(cs) && Run(cs, steps).Some?
    ensures LoadedValue(Run(cs, steps).value)
  {
    CountersExact(cs, steps);
    AlwaysInOrder(cs, steps);
    hide Run, LoadedValue, LoadedExact, InOrder;
    LoadedUnwrapped(Run(cs, steps).value);
  }

  /** Lowering the counter wraps below zero exactly when the worker is the only one credited and
      a signal is still uncounted; never once initialisation is done. */
  lemma UnderflowIff(cs: seq<WorkerConfig>, steps: seq<Step>, w: nat, a: Action)
    requires ValidConfig(cs) && Run(cs, steps).Some? && w < |cs|
    requires After(cs, Run(cs, steps).value, Act(w, a)).Some?
    requires Lowers(Run(cs, steps).value.workers[w], a)
    ensures var s := Run(cs, steps).value; var s' := After(cs, s, Act(w, a)).value;
      && (s'.loaded != s.loaded - 1 <==> Count(s.workers, Credited) == 1 && Uncounted(s) == 1)
      && (s.init.Done? ==> s'.loaded == s.loaded - 1)
  {
    LoadedIs(cs, steps);
    AlwaysInOrder(cs, steps);
    hide Run, LoadedValue, InOrder, Lowers, ActStep;
    LoweringWraps(cs, Run(cs, steps).value, w, a);
  }

  lemma LoweringWraps(cs: seq<WorkerConfig>, s: Pool, w: nat, a: Action)
    requires |cs| == |s.workers| && LoadedValue(s) && InOrder(s)
    requires ActStep(cs, s, w, a).Some? && Lowers(s.workers[w], a)
    ensures var s' := ActStep(cs, s, w, a).value;
      && (s'.loaded != s.loaded - 1 <==> Count(s.workers, Credited) == 1 && Uncounted(s) == 1)
      && (s.init.Done? ==> s'.loaded == s.loaded - 1)
  {
    LowererCredited(cs[w], s.workers[w], a);
    CountBounds(s.workers, Credited);
    AtMostOneUncounted(s);
    assert ActStep(cs, s, w, a).value.loaded == Wrap(s.loaded - 1);
    hide ActStep, Credited, InOrder, Uncounted, Count, Lowers, Wrap;
    WrapBelow(s.loaded, 1);
  }

  lemma LowererCredited(cfg: WorkerConfig, p: Phase, a: Action)
    requires Next(cfg, p, a).Some? && Lowers(p, a)
    ensures Credited(p)
  {}

  /** After initialisation a zero counter means no worker still has its models, save in the two
      windows where a worker has reloaded but not yet counted itself, or is on its way out. */
  lemma ZeroMeansUnloaded(cs: seq<WorkerConfig>, steps: seq<Step>, w: nat)
    requires ValidConfig(cs) && Run(cs, steps).Some? && w < |cs|
    requires Run(cs, steps).value.init.Done? && Run(cs, steps).value.loaded == 0
    ensures var p := Run(cs, steps).value.workers[w];
      HoldsModels(p) ==> p.Reloaded? || p.Leaving?
  {
    var s := Run(cs, steps).value;
    LoadedIs(cs, steps);
    AlwaysInOrder(cs, steps);
    CountBounds(s.workers, Credited);
    assert !Credited(s.workers[w]) && Signalled(s.workers[w]);
    hide Run, Count, InOrder;
  }

  predicate Fatally(p: Phase) { p == Exited(FatalBuild) }

  /** Between requests: waiting, or gone. */
  predicate AtRest(p: Phase) { p.Head? || p.Exited? }

  /** With every worker at rest the counter is the workers holding models plus the fatal exits. */
  lemma LoadedAtRest(cs: seq<WorkerConfig>, steps: seq<Step>)
    requires ValidConfig(cs) && Run(cs, steps).Some? && Run(cs, steps).value.init.Done?
    requires forall w :: 0 <= w < |cs| ==> AtRest(Run(cs, steps).value.workers[w])
    ensures var s := Run(cs, steps).value;
      s.loaded == Count(s.workers, HoldsModels) + Count(s.workers, Fatally)
  {
    LoadedIs(cs, steps);
    RestCount(Run(cs, steps).value.workers);
    hide Run;
  }

  lemma {:induction false} RestCount(ws: seq<Phase>)
    requires forall w :: 0 <= w < |ws| ==> AtRest(ws[w])
    ensures Count(ws, Credited) == Count(ws, HoldsModels) + Count(ws, Fatally)
  {
    if ws != [] {
      RestCount(ws[..|ws| - 1]);
    }
  }

  /** A fatal exit is counted for ever: from then on the counter never reads zero. */
  lemma FatalExitsStayCounted(cs: seq<WorkerConfig>, steps: seq<Step>)
    requires ValidConfig(cs) && Run(cs, steps).Some? && Run(cs, steps).value.init.Done?
    ensures var s := Run(cs, steps).value; s.loaded >= Count(s.workers, Fatally)
  {
    LoadedIs(cs, steps);
    FatalCount(Run(cs, steps).value.workers);
    hide Run;
  }

  lemma {:induction false} FatalCount(ws: seq<Phase>)
    ensures Count(ws, Fatally) <= Count(ws, Credited)
  {
    if ws != [] {
      FatalCount(ws[..|ws| - 1]);
    }
  }

  // ---- live_workers ----

  /** `live_workers` never wraps and is zero exactly when every worker has exited; workers never
      spawned because init failed before them still count. */
  lemma LiveIs(cs: seq<WorkerConfig>, steps: seq<Step>)
    requires ValidConfig(cs) && Run(cs, steps).Some?
    ensures var s := Run(cs, steps).value;
      && s.live == |cs| - Count(s.workers, Departed)
      && (s.live == 0 <==> forall w :: 0 <= w < |cs| ==> s.workers[w].Exited?)
      && (s.init.InitFailed? && s.init.id < |cs| - 1 ==> s.live > 0)
  {
    var s := Run(cs, steps).value;
    CountersExact(cs, steps);
    AlwaysInOrder(cs, steps);
    hide Run;
    AllDeparted(s.workers);
    if s.init.InitFailed? && s.init.id < |cs| - 1 {
      assert s.workers[|cs| - 1].Absent?;
    }
  }

  lemma {:induction false} AllDeparted(ws: seq<Phase>)
    ensures Count(ws, Departed) <= |ws|
    ensures Count(ws, Departed) == |ws| <==> forall w :: 0 <= w < |ws| ==> ws[w].Exited?
  {
    if ws != [] {
      AllDeparted(ws[..|ws| - 1]);
      CountBounds(ws[..|ws| - 1], Departed);
      assert forall w :: 0 <= w < |ws| - 1 ==> ws[w] == ws[..|ws| - 1][w];
    }
  }

  // ---- The window in which the counter does wrap ----

  lemma RunGrows(cs: seq<WorkerConfig>, steps: seq<Step>, s: Pool, step: Step, s': Pool)
    requires Run(cs, steps) == Some(s) && After(cs, s, step) == Some(s')
    ensures Run(cs, steps + [step]) == Some(s')
  {
    assert (steps + [step])[..|steps|] == steps;
  }

  /** A pool of one worker that has received no request. */
  function Lone(p: Phase, loaded: nat, init: Init, ready: seq<Signal>, deltas: seq<nat>): Pool {
    Pool([p], 1, loaded, init, ready, deltas, [], map[], [], false, false, 0, [], None)
  }

  /** A worker that signals, times out and unloads before init has counted it. */
  function SignalEarly(delta: nat): seq<Step> {
    [] + [SpawnNext] + [Act(0, LoadModels)] + [Act(0, SendReady(delta))]
  }

  function UnloadEarly(delta: nat): seq<Step> {
    SignalEarly(delta) + [Act(0, TimeOut)] + [Act(0, LowerLoaded)]
  }

  function CountLate(delta: nat): seq<Step> {
    UnloadEarly(delta) + [TakeSignal] + [CountReady]
  }

  lemma One<T>(x: T, y: T)
    ensures [x][0 := y] == [y] && [] + [x] == [x] && [x][1..] == []
  {}

  lemma SignalsEarly(cfg: WorkerConfig, delta: nat)
    requires !cfg.Prewarms()
    ensures Run([cfg], SignalEarly(delta)) == Some(Lone(Head(true, 0), 0, Awaiting(0), [Up(0, delta)], []))
  {
    var cs := [cfg];
    One(Absent, Loading);
    One(Loading, Loaded(false));
    One(Loaded(false), Head(true, 0));
    One(Up(0, delta), Up(0, delta));
    assert Start(cs) == Lone(Absent, 0, Spawning(0), [], []);
    assert Run(cs, []) == Some(Start(cs));
    hide Run;
    RunGrows(cs, [], Lone(Absent, 0, Spawning(0), [], []), SpawnNext, Lone(Loading, 0, Awaiting(0), [], []));
    RunGrows(cs, [] + [SpawnNext], Lone(Loading, 0, Awaiting(0), [], []), Act(0, LoadModels),
             Lone(Loaded(false), 0, Awaiting(0), [], []));
    RunGrows(cs, [] + [SpawnNext] + [Act(0, LoadModels)], Lone(Loaded(false), 0, Awaiting(0), [], []),
             Act(0, SendReady(delta)), Lone(Head(true, 0), 0, Awaiting(0), [Up(0, delta)], []));
  }

  lemma TimesOutEarly(cfg: WorkerConfig, delta: nat)
    requires cfg.idleTimeout && !cfg.Prewarms()
    ensures Run([cfg], SignalEarly(delta) + [Act(0, TimeOut)]) ==
      Some(Lone(Unloading(0), 0, Awaiting(0), [Up(0, delta)], []))
  {
    SignalsEarly(cfg, delta);
    hide Run, SignalEarly;
    One(Head(true, 0), Unloading(0));
    RunGrows([cfg], SignalEarly(delta), Lone(Head(true, 0), 0, Awaiting(0), [Up(0, delta)], []), Act(0, TimeOut),
             Lone(Unloading(0), 0, Awaiting(0), [Up(0, delta)], []));
  }

  lemma UnloadsEarly(cfg: WorkerConfig, delta: nat)
    requires cfg.idleTimeout && !cfg.Prewarms()
    ensures Run([cfg], UnloadEarly(delta)) == Some(Lone(Head(false, 0), USIZE_MAX, Awaiting(0), [Up(0, delta)], []))
  {
    TimesOutEarly(cfg, delta);
    hide Run, SignalEarly;
    One(Unloading(0), Head(false, 0));
    assert Wrap(-1) == USIZE_MAX;
    RunGrows([cfg], SignalEarly(delta) + [Act(0, TimeOut)], Lone(Unloading(0), 0, Awaiting(0), [Up(0, delta)], []),
             Act(0, LowerLoaded), Lone(Head(false, 0), USIZE_MAX, Awaiting(0), [Up(0, delta)], []));
  }

  /** A lone worker reports the largest usize as its loaded count until init counts the signal,
      after which the counter reads zero again. */
  lemma EarlyTimeoutWraps(cfg: WorkerConfig, delta: nat)
    requires cfg.idleTimeout && !cfg.Prewarms()
    ensures Run([cfg], UnloadEarly(delta)).Some? && Run([cfg], UnloadEarly(delta)).value.loaded == USIZE_MAX
    ensures Run([cfg], CountLate(delta)).Some? && Run([cfg], CountLate(delta)).value.loaded == 0
  {
    var cs := [cfg];
    UnloadsEarly(cfg, delta);
    hide Run, UnloadEarly;
    One(Up(0, delta), Up(0, delta));
    One(delta, delta);
    var wrapped := Lone(Head(false, 0), USIZE_MAX, Awaiting(0), [Up(0, delta)], []);
    var taken := Lone(Head(false, 0), USIZE_MAX, Counting(0, delta), [], []);
    RunGrows(cs, UnloadEarly(delta), wrapped, TakeSignal, taken);
    RunGrows(cs, UnloadEarly(delta) + [TakeSignal], taken, CountReady, Lone(Head(false, 0), 0, Spawning(1), [], [delta]));
  }

  // ---- The windows in which zero is reported over held models, and the fatal exit ----

  lemma OneFate(id: nat, f: Fate, g: Fate)
    ensures map[][id := f] == map[id := f] && map[id := f][id := g] == map[id := g]
  {}

  /** A lone worker takes the lone request waiting. */
  lemma LoneReceives(cfg: WorkerConfig, steps: seq<Step>, s: Pool, r: Request, p: Phase, q: Phase)
    requires Run([cfg], steps) == Some(s.(workers := [p], fates := map[])) && |s.workers| == 1
    requires s.queue == [] && !s.closed && !s.receiverGone && Next(cfg, p, Receive(r)) == Some(q)
    ensures Run([cfg], steps + [Submit(r)] + [Act(0, Receive(r))]) == Some(s.(workers := [q], fates := map[r.id := Held(0)]))
  {
    hide Run, Next;
    var idle := s.(workers := [p], fates := map[]);
    LoneSubmits(steps, [cfg], idle, r);
    LoneTakes(cfg, idle.(queue := [r], fates := map[r.id := Queued]), r, q);
    RunGrows([cfg], steps + [Submit(r)], idle.(queue := [r], fates := map[r.id := Queued]), Act(0, Receive(r)),
             s.(workers := [q], fates := map[r.id := Held(0)]));
  }

  lemma LoneSubmits(steps: seq<Step>, cs: seq<WorkerConfig>, s: Pool, r: Request)
    requires Run(cs, steps) == Some(s) && |s.workers| == 1
    requires s.queue == [] && !s.closed && !s.receiverGone && s.fates == map[]
    ensures Run(cs, steps + [Submit(r)]) == Some(s.(queue := [r], fates := map[r.id := Queued]))
  {
    hide Run;
    One(r, r);
    OneFate(r.id, Queued, Queued);
    RunGrows(cs, steps, s, Submit(r), s.(queue := [r], fates := map[r.id := Queued]));
  }

  lemma LoneTakes(cfg: WorkerConfig, s: Pool, r: Request, q: Phase)
    requires |s.workers| == 1 && s.queue == [r] && s.fates == map[r.id := Queued]
    requires Next(cfg, s.workers[0], Receive(r)) == Some(q)
    ensures After([cfg], s, Act(0, Receive(r))) == Some(s.(workers := [q], queue := [], fates := map[r.id := Held(0)]))
  {
    hide Next;
    One(s.workers[0], q);
    One(r, r);
    OneFate(r.id, Queued, Held(0));
    assert s.workers[0 := q] == [q];
  }

  /** Initialisation of a lone worker, complete. */
  function Opened(delta: nat): seq<Step> {
    SignalEarly(delta) + [TakeSignal] + [CountReady] + [FinishInit]
  }

  function Ready(delta: nat): Pool { Lone(Head(true, 0), 1, Done, [], [delta]) }

  lemma Opens(cfg: WorkerConfig, delta: nat)
    requires !cfg.Prewarms()
    ensures Run([cfg], Opened(delta)) == Some(Ready(delta))
  {
    var cs := [cfg];
    SignalsEarly(cfg, delta);
    hide Run, SignalEarly;
    One(Up(0, delta), Up(0, delta));
    One(delta, delta);
    var taken := Lone(Head(true, 0), 0, Counting(0, delta), [], []);
    var counted := Lone(Head(true, 0), 1, Spawning(1), [], [delta]);
    RunGrows(cs, SignalEarly(delta), Lone(Head(true, 0), 0, Awaiting(0), [Up(0, delta)], []), TakeSignal, taken);
    RunGrows(cs, SignalEarly(delta) + [TakeSignal], taken, CountReady, counted);
    RunGrows(cs, SignalEarly(delta) + [TakeSignal] + [CountReady], counted, FinishInit, Ready(delta));
  }

  function LeaveWithModels(delta: nat): seq<Step> {
    Opened(delta) + [CloseChannel] + [Act(0, SeeClosed)]
  }

  /** A worker that sees the channel closed lowers the counter before it drops its models. */
  lemma ZeroWhileLeaving(cfg: WorkerConfig, delta: nat)
    requires !cfg.Prewarms()
    ensures var s := Run([cfg], LeaveWithModels(delta));
      s.Some? && s.value.init.Done? && s.value.loaded == 0 && s.value.workers == [Leaving(true)]
  {
    Opens(cfg, delta);
    hide Run, Opened;
    One(Head(true, 0), Leaving(true));
    var closed := Ready(delta).(closed := true);
    RunGrows([cfg], Opened(delta), Ready(delta), CloseChannel, closed);
    RunGrows([cfg], Opened(delta) + [CloseChannel], closed, Act(0, SeeClosed), closed.(workers := [Leaving(true)], loaded := 0));
  }

  function Idled(delta: nat): seq<Step> {
    Opened(delta) + [Act(0, TimeOut)] + [Act(0, LowerLoaded)]
  }

  lemma Idles(cfg: WorkerConfig, delta: nat)
    requires cfg.idleTimeout && !cfg.Prewarms()
    ensures Run([cfg], Idled(delta)) == Some(Ready(delta).(workers := [Head(false, 0)], loaded := 0))
  {
    Opens(cfg, delta);
    hide Run, Opened;
    One(Head(true, 0), Unloading(0));
    One(Unloading(0), Head(false, 0));
    var dropped := Ready(delta).(workers := [Unloading(0)]);
    RunGrows([cfg], Opened(delta), Ready(delta), Act(0, TimeOut), dropped);
    RunGrows([cfg], Opened(delta) + [Act(0, TimeOut)], dropped, Act(0, LowerLoaded), dropped.(workers := [Head(false, 0)], loaded := 0));
  }

  function Wake(delta: nat, r: Request): seq<Step> {
    Idled(delta) + [Submit(r)] + [Act(0, Receive(r))]
  }

  function Waking(p: Phase, delta: nat, r: Request): Pool {
    Lone(p, 0, Done, [], [delta]).(fates := map[r.id := Held(0)])
  }

  lemma Wakes(cfg: WorkerConfig, delta: nat, r: Request)
    requires cfg.idleTimeout && !cfg.Prewarms()
    ensures Run([cfg], Wake(delta, r)) == Some(Waking(Reloading(r, 0), delta, r))
  {
    Idles(cfg, delta);
    hide Idled, Run;
    LoneReceives(cfg, Idled(delta), Lone(Head(false, 0), 0, Done, [], [delta]), r, Head(false, 0), Reloading(r, 0));
  }

  /** A reloading worker has its models back before it counts itself again. */
  lemma ZeroWhileReloaded(cfg: WorkerConfig, delta: nat, r: Request)
    requires cfg.idleTimeout && !cfg.Prewarms()
    ensures var s := Run([cfg], Wake(delta, r) + [Act(0, ReloadModels)]);
      s.Some? && s.value.init.Done? && s.value.loaded == 0 && s.value.workers == [Reloaded(r, 0)]
  {
    Wakes(cfg, delta, r);
    hide Wake, Run;
    One(Reloading(r, 0), Reloaded(r, 0));
    RunGrows([cfg], Wake(delta, r), Waking(Reloading(r, 0), delta, r), Act(0, ReloadModels), Waking(Reloaded(r, 0), delta, r));
  }

  function ReplyFatally(delta: nat, r: Request, v: Verdict): seq<Step> {
    Opened(delta) + [Submit(r)] + [Act(0, Receive(r))] + [Act(0, Reply(r, v))]
  }

  function Replied(delta: nat, r: Request): Pool {
    Ready(delta).(workers := [Fatal], fates := map[r.id := Answered(0)], replies := [r.id])
  }

  lemma RepliesFatally(cfg: WorkerConfig, delta: nat, r: Request, v: Verdict)
    requires !cfg.Prewarms() && r.kind.Client? && v.trtFatal
    ensures Run([cfg], ReplyFatally(delta, r, v)) == Some(Replied(delta, r))
  {
    Opens(cfg, delta);
    hide Opened;
    LoneReceives(cfg, Opened(delta), Ready(delta), r, Head(true, 0), Busy(r, 0));
    var taken := Ready(delta).(workers := [Busy(r, 0)], fates := map[r.id := Held(0)]);
    LoneReplies(cfg, taken, r, v);
    hide Run, After;
    RunGrows([cfg], Opened(delta) + [Submit(r)] + [Act(0, Receive(r))], taken, Act(0, Reply(r, v)), Replied(delta, r));
  }

  lemma LoneReplies(cfg: WorkerConfig, s: Pool, r: Request, v: Verdict)
    requires s.workers == [Busy(r, 0)] && s.fates == map[r.id := Held(0)] && s.replies == []
    requires r.kind.Client? && v.trtFatal
    ensures After([cfg], s, Act(0, Reply(r, v))) ==
      Some(s.(workers := [Fatal], fates := map[r.id := Answered(0)], replies := [r.id]))
  {
    One(Busy(r, 0), Fatal);
    One(r.id, r.id);
    OneFate(r.id, Held(0), Answered(0));
  }

  /** A worker that returns on a fatal build leaves the counter raised with nobody alive. */
  lemma LoadedWithNobodyAlive(cfg: WorkerConfig, delta: nat, r: Request, v: Verdict)
    requires !cfg.Prewarms() && r.kind.Client? && v.trtFatal
    ensures var s := Run([cfg], ReplyFatally(delta, r, v) + [Act(0, Exit)]);
      s.Some? && s.value.init.Done? && s.value.loaded == 1 && s.value.live == 0 && s.value.workers == [Exited(FatalBuild)]
  {
    RepliesFatally(cfg, delta, r, v);
    hide Run, ReplyFatally;
    One(Fatal, Exited(FatalBuild));
    RunGrows([cfg], ReplyFatally(delta, r, v), Replied(delta, r), Act(0, Exit),
             Replied(delta, r).(workers := [Exited(FatalBuild)], live := 0));
  }
}
