/** One worker's life as a sequence of atomic actions (src/embedder/worker/run.rs, startup.rs). */
module WorkerLoop {
  import opened Numbers
  import opened Outcomes
  import opened CircuitBreaker
  import opened WarmupShapes
  import opened TrtWarmup

  /** Only embedding requests have a client that can walk away. */
  datatype Kind = Client | Probe | AdaptiveWarmup(shape: Shape)

  datatype Request = Request(id: nat, kind: Kind)

  /** `shard`: the warmup shapes assigned to this worker. */
  datatype WorkerConfig = WorkerConfig(idleTimeout: bool, threshold: nat, tensorRt: bool, strict: bool, shard: seq<Shape>) {

    predicate Prewarms() { tensorRt && shard != [] }
  }

  datatype Why = StartupError | ChannelClosed | FatalBuild

  /** Where a worker stands between two of its atomic actions. */
  datatype Phase =
    | Absent
    | Loading
    | Loaded(prewarmed: bool)
    | StartupFailed
    | Head(models: bool, failures: nat)
    | Unloading(failures: nat)                 // models gone, counter not yet lowered
    | Reloading(request: Request, failures: nat)
    | Reloaded(request: Request, failures: nat) // models back, counter not yet raised
    | Busy(request: Request, failures: nat)
    | Breaking                                  // replied, models about to go
    | Fatal                                     // replied, about to return the error
    | Leaving(models: bool)                     // counter lowered, about to return
    | Exited(why: Why)

  datatype Action =
    | Spawn
    | LoadModels
    | SendLoadError
    | RaiseCeiling(sweep: Sweep)
    | RefuseReadiness
    | SendReady(delta: nat)
    | TimeOut
    | SeeClosed
    | LowerLoaded
    | Receive(request: Request)
    | ReloadModels
    | RaiseLoaded
    | ReplyLoadError(request: Request)
    | Skip(request: Request)
    | Reply(request: Request, verdict: Verdict)
    | DropModels
    | Exit

  /** Internal requests reply without touching the outcome, which stays a success. */
  function OutcomeOf(r: Request, v: Verdict, failures: nat, threshold: nat): InferenceOutcome {
    if r.kind.Client? then Classify(v, failures, threshold) else Succeeded
  }

  function AfterReply(outcome: InferenceOutcome, failures: nat): Phase {
    match outcome
    case TrtFatal => Fatal
    case CircuitBreak => Breaking
    case _ => Head(true, NextFailures(outcome, failures))
  }

  /** The prewarm behind a raise of the ceiling: the whole shard at startup, one announced shape
      between requests, the requested shape of an adaptive compile; the latter two only on a gain. */
  ghost predicate MayRaise(cfg: WorkerConfig, p: Phase, w: Sweep) {
    && cfg.tensorRt && Swept(w)
    && match p
       case Loaded(prewarmed) => !prewarmed && cfg.shard != [] && w.shapes == cfg.shard
       case Head(models, _) => models && |w.shapes| == 1 && Gained(w)
       case Busy(r, _) => r.kind.AdaptiveWarmup? && w.shapes == [r.kind.shape] && Gained(w)
       case _ => false
  }

  /** The value folded into the ceiling: startup folds what the prewarm reports, the others at least
      the shape's own length. */
  function Folded(p: Phase, w: Sweep): nat {
    if p.Loaded? || w.shapes == [] then w.stats.maxWarmedSeq else Max(w.stats.maxWarmedSeq, w.shapes[0].seqLen)
  }

  /** The phase an action leads to, if the worker can take it now. */
  ghost function Next(cfg: WorkerConfig, p: Phase, a: Action): Option<Phase> {
    match p
    case Absent => if a.Spawn? then Some(Loading) else None
    case Loading =>
      if a.LoadModels? then Some(Loaded(false)) else if a.SendLoadError? then Some(StartupFailed) else None
    case Loaded(prewarmed) =>
      if a.RaiseCeiling? then if MayRaise(cfg, p, a.sweep) then Some(Loaded(true)) else None
      else if a.RefuseReadiness? then if prewarmed && cfg.strict then Some(StartupFailed) else None
      else if a.SendReady? then if prewarmed == cfg.Prewarms() then Some(Head(true, 0)) else None
      else None
    case StartupFailed => if a.Exit? then Some(Exited(StartupError)) else None
    case Head(models, failures) =>
      if a.RaiseCeiling? then if MayRaise(cfg, p, a.sweep) then Some(p) else None
      else if a.TimeOut? then if models && cfg.idleTimeout then Some(Unloading(failures)) else None
      else if a.SeeClosed? then Some(Leaving(models))
      else if a.Receive? then Some(if models then Busy(a.request, failures) else Reloading(a.request, failures))
      else None
    case Unloading(failures) => if a.LowerLoaded? then Some(Head(false, failures)) else None
    case Reloading(r, failures) =>
      if a.ReloadModels? then Some(Reloaded(r, failures))
      else if a == ReplyLoadError(r) then Some(Head(false, failures))
      else None
    case Reloaded(r, failures) => if a.RaiseLoaded? then Some(Busy(r, failures)) else None
    case Busy(r, failures) =>
      if a.RaiseCeiling? then if MayRaise(cfg, p, a.sweep) then Some(p) else None
      else if a == Skip(r) then if r.kind.Client? then Some(Head(true, failures)) else None
      else if a.Reply? && a.request == r then
        Some(AfterReply(OutcomeOf(r, a.verdict, failures, cfg.threshold), failures))
      else None
    case Breaking => if a.DropModels? then Some(Unloading(0)) else None
    case Fatal => if a.Exit? then Some(Exited(FatalBuild)) else None
    case Leaving(_) => if a.Exit? then Some(Exited(ChannelClosed)) else None
    case Exited(_) => None
  }

  /** The phase a whole log of actions leads to. */
  ghost function Path(cfg: WorkerConfig, log: seq<Action>): Option<Phase> {
    if log == [] then Some(Absent)
    else
      var before := Path(cfg, log[..|log| - 1]);
      if before.None? then None else Next(cfg, before.value, log[|log| - 1])
  }

  lemma PathGrows(cfg: WorkerConfig, log: seq<Action>, a: Action)
    requires Path(cfg, log).Some?
    ensures Path(cfg, log + [a]) == Next(cfg, Path(cfg, log).value, a)
  {
    assert (log + [a])[..|log|] == log;
  }

  // ---- Requests pass through a worker one at a time ----

  function Received(log: seq<Action>): seq<Request> {
    if log == [] then []
    else
      var a, front := log[|log| - 1], Received(log[..|log| - 1]);
      if a.Receive? then front + [a.request] else front
  }

  /** The requests replied to or skipped, in order. */
  function Settled(log: seq<Action>): seq<Request> {
    if log == [] then []
    else
      var a, front := log[|log| - 1], Settled(log[..|log| - 1]);
      if a.Reply? || a.Skip? || a.ReplyLoadError? then front + [a.request] else front
  }

  function Carried(p: Phase): seq<Request> {
    if p.Reloading? || p.Reloaded? || p.Busy? then [p.request] else []
  }

  /** Every request a worker receives is settled exactly once, before it receives another,
      times out or exits. */
  lemma {:induction false} ReceivedAreSettled(cfg: WorkerConfig, log: seq<Action>)
    requires Path(cfg, log).Some?
    ensures Received(log) == Settled(log) + Carried(Path(cfg, log).value)
  {
    if log != [] {
      ReceivedAreSettled(cfg, log[..|log| - 1]);
      CarriedNext(cfg, Path(cfg, log[..|log| - 1]).value, log[|log| - 1]);
    }
  }

  lemma CarriedNext(cfg: WorkerConfig, p: Phase, a: Action)
    requires Next(cfg, p, a).Some?
    ensures var q := Next(cfg, p, a).value;
      && (a.Receive? ==> Carried(p) == [] && Carried(q) == [a.request])
      && (a.Reply? || a.Skip? || a.ReplyLoadError? ==> Carried(p) == [a.request] && Carried(q) == [])
      && (!a.Receive? && !a.Reply? && !a.Skip? && !a.ReplyLoadError? ==> Carried(q) == Carried(p))
  {}

  // ---- What a reply leads to, and how a worker ends ----

  /** A client's request met a fatal engine build. */
  predicate FatalReply(a: Action) { a.Reply? && a.request.kind.Client? && a.verdict.trtFatal }

  predicate StartupFailure(a: Action) { a.SendLoadError? || a.RefuseReadiness? }

  predicate SawClosed(a: Action) { a.SeeClosed? }

  /** After a reply the worker goes on to end only for a client's fatal build; a refusal by the guard
      leaves it as it was; any other error counts, until the threshold takes the models; everything
      else starts the count anew. */
  lemma ReplyLeads(cfg: WorkerConfig, r: Request, v: Verdict, failures: nat)
    ensures var q := Next(cfg, Busy(r, failures), Reply(r, v));
      && q.Some? && (q.value.Fatal? <==> r.kind.Client? && v.trtFatal)
      && (r.kind.Client? && !v.trtFatal && v.guardRejected ==> q.value == Head(true, failures))
      && (r.kind.Client? && !v.trtFatal && !v.guardRejected && v.isErr ==>
            q.value == if failures + 1 < cfg.threshold then Head(true, failures + 1) else Breaking)
      && (r.kind.Client? && !v.trtFatal && !v.guardRejected && !v.isErr ==> q.value == Head(true, 0))
      && (!r.kind.Client? ==> q.value == Head(true, 0))
  {}

  lemma EndNext(cfg: WorkerConfig, p: Phase, a: Action)
    requires Next(cfg, p, a).Some?
    ensures var q := Next(cfg, p, a).value;
      && !p.Exited? && (q.Fatal? <==> FatalReply(a)) && (p.Fatal? ==> a.Exit?)
      && (q.StartupFailed? <==> StartupFailure(a)) && (q.Leaving? <==> SawClosed(a))
      && (q.Exited? <==> a.Exit?)
      && (a.Exit? ==>
            || (p.Fatal? && q == Exited(FatalBuild))
            || (p.Leaving? && q == Exited(ChannelClosed))
            || (p.StartupFailed? && q == Exited(StartupError)))
  {}

  predicate EndsFatally(log: seq<Action>) { |log| >= 2 && log[|log| - 1].Exit? && FatalReply(log[|log| - 2]) }

  predicate EndsClosed(log: seq<Action>) { |log| >= 2 && log[|log| - 1].Exit? && SawClosed(log[|log| - 2]) }

  predicate EndsUnstarted(log: seq<Action>) { |log| >= 2 && log[|log| - 1].Exit? && StartupFailure(log[|log| - 2]) }

  /** Whether the last action is of a kind. */
  predicate Just(log: seq<Action>, kind: Action -> bool) { log != [] && kind(log[|log| - 1]) }

  ghost predicate Explained(log: seq<Action>, p: Phase) {
    && (p.Fatal? <==> Just(log, FatalReply)) && (p == Exited(FatalBuild) <==> EndsFatally(log))
    && (p.Leaving? <==> Just(log, SawClosed)) && (p == Exited(ChannelClosed) <==> EndsClosed(log))
    && (p.StartupFailed? <==> Just(log, StartupFailure)) && (p == Exited(StartupError) <==> EndsUnstarted(log))
    && (forall i :: 0 <= i < |log| - 1 && FatalReply(log[i]) ==> EndsFatally(log) && i == |log| - 2)
  }

  lemma ExplainedNext(cfg: WorkerConfig, front: seq<Action>, p: Phase, a: Action)
    requires Explained(front, p) && Next(cfg, p, a).Some?
    ensures Explained(front + [a], Next(cfg, p, a).value)
  {
    EndNext(cfg, p, a);
    hide Next, FatalReply, SawClosed, StartupFailure;
    var log := front + [a];
    assert log[|log| - 1] == a && forall i :: 0 <= i < |front| ==> log[i] == front[i];
  }

  /** Over every life: a worker has ended in a fatal build exactly when its last two actions are a
      reply to a client with a fatal verdict and the exit; in a closed channel exactly when it saw
      that; in a startup error exactly when it reported one or refused readiness. Nothing but the exit
      ever follows a fatal reply. */
  lemma {:induction false} EndsExplained(cfg: WorkerConfig, log: seq<Action>)
    requires Path(cfg, log).Some?
    ensures Explained(log, Path(cfg, log).value)
  {
    if log != [] {
      var front, a := log[..|log| - 1], log[|log| - 1];
      EndsExplained(cfg, front);
      hide Next, Explained;
      ExplainedNext(cfg, front, Path(cfg, front).value, a);
      assert log == front + [a];
    }
  }

  // ---- The failure counter over a whole life ----

  /** The verdicts the counter sees: internal requests count as successes; skips and reload
      errors are not verdicts at all. */
  function Verdicts(log: seq<Action>): seq<Verdict> {
    if log == [] then []
    else
      var a, front := log[|log| - 1], Verdicts(log[..|log| - 1]);
      if !a.Reply? then front
      else if a.request.kind.Client? then front + [a.verdict]
      else front + [Verdict(false, false, false)]
  }

  function Failures(p: Phase): Option<nat> {
    if p.Head? || p.Unloading? || p.Reloading? || p.Reloaded? || p.Busy? then Some(p.failures)
    else if p.Absent? || p.Loading? || p.Loaded? || p.Breaking? then Some(0)
    else None
  }

  /** At every point of a worker's life its counter is the trailing errors of its history with
      refusals, skips and reload errors erased, modulo the threshold it never reaches. */
  lemma {:induction false} CounterOverLife(cfg: WorkerConfig, log: seq<Action>)
    requires cfg.threshold >= 1 && Path(cfg, log).Some? && Failures(Path(cfg, log).value).Some?
    ensures Failures(Path(cfg, log).value).value == TrailingErrors(Erased(Verdicts(log))) % cfg.threshold
    ensures Failures(Path(cfg, log).value).value < cfg.threshold
  {
    CounterOnPath(cfg, log);
    CounterIsTrailingErrors(Verdicts(log), cfg.threshold);
  }

  lemma {:induction false} CounterOnPath(cfg: WorkerConfig, log: seq<Action>)
    requires Path(cfg, log).Some?
    ensures Failures(Path(cfg, log).value).Some? ==>
      Failures(Path(cfg, log).value).value == Counter(Verdicts(log), cfg.threshold)
    ensures var p := Path(cfg, log).value; p.Absent? || p.Loading? || p.Loaded? ==> Verdicts(log) == []
  {
    if log != [] {
      var front, a := log[..|log| - 1], log[|log| - 1];
      CounterOnPath(cfg, front);
      if a.Reply? {
        assert Verdicts(log)[..|Verdicts(log)| - 1] == Verdicts(front);
      }
      CounterNext(cfg, Path(cfg, front).value, a);
    }
  }

  lemma CounterNext(cfg: WorkerConfig, p: Phase, a: Action)
    requires Next(cfg, p, a).Some?
    ensures var q := Next(cfg, p, a).value;
      && (Failures(q).Some? ==> Failures(p).Some?)
      && (Failures(q).Some? && !a.Reply? ==> Failures(q) == Failures(p))
      && (a.Reply? && Failures(q).Some? ==>
            Failures(q).value == NextFailures(OutcomeOf(a.request, a.verdict, Failures(p).value, cfg.threshold), Failures(p).value))
      && (q.Absent? || q.Loading? || q.Loaded? ==> !a.Reply? && (p.Absent? || p.Loading? || p.Loaded?))
  {}

  /** The breaker drops the models exactly after the reply that completes a run of threshold
      consecutive errors. */
  lemma BreakerOverLife(cfg: WorkerConfig, log: seq<Action>, r: Request, v: Verdict)
    requires cfg.threshold >= 1 && Path(cfg, log + [Reply(r, v)]).Some?
    ensures Path(cfg, log + [Reply(r, v)]).value.Breaking? <==>
      var run := TrailingErrors(Erased(Verdicts(log + [Reply(r, v)])));
      r.kind.Client? && v.Counted() && run > 0 && run % cfg.threshold == 0
  {
    var p := Path(cfg, log);
    assert (log + [Reply(r, v)])[..|log|] == log;
    CounterOnPath(cfg, log);
    if r.kind.Client? {
      VerdictsGrow(log, r, v);
    }
    hide Path, Verdicts;
    BreakingReply(cfg, p.value, r, v);
    if r.kind.Client? {
      BreaksExactlyAtThreshold(Verdicts(log), v, cfg.threshold);
    }
  }

  lemma VerdictsGrow(log: seq<Action>, r: Request, v: Verdict)
    requires r.kind.Client?
    ensures Verdicts(log + [Reply(r, v)]) == Verdicts(log) + [v]
  {
    assert (log + [Reply(r, v)])[..|log|] == log;
  }

  lemma BreakingReply(cfg: WorkerConfig, p: Phase, r: Request, v: Verdict)
    requires Next(cfg, p, Reply(r, v)).Some?
    ensures Failures(p).Some?
    ensures Next(cfg, p, Reply(r, v)).value.Breaking? <==>
      r.kind.Client? && ShouldUnload(Classify(v, Failures(p).value, cfg.threshold))
  {}
}
