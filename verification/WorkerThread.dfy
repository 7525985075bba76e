/** The worker function itself, imperative, against its phase automaton (src/embedder/worker/run.rs). */
module WorkerThread {
  import opened Outcomes
  import opened CircuitBreaker
  import opened WarmupShapes
  import TrtWarmup
  import opened WorkerLoop

  datatype Message = Ready(shape: Shape) | Lagged

  /** A load of the models: how the new session's runs will go, and what its engine cache covers. */
  datatype Load = Load(environment: nat -> TrtWarmup.Attempt, profile: Option<TrtWarmup.Box>)

  /** What the environment does during startup; the engine counts are those of the cache directory
      around the prewarm. */
  datatype Startup =
    | LoadFails
    | Loads(load: Load, enginesBefore: nat, enginesAfter: nat, delta: nat)

  /** What the environment does during one turn of the request loop; `engines` counts the cached
      plans before a prewarm of the shape. */
  datatype Turn = Turn(news: seq<Message>, engines: Shape -> nat, recv: Receipt)

  datatype Receipt =
    | TimesOut
    | Closes
    | Gets(request: Request, reload: Option<Load>, gone: bool, engines: nat, verdict: Verdict, broadcast: Option<Shape>)

  /** How the thread ends up: waiting for more, or returned. */
  datatype Ending = Waiting | ReturnedOk | ReturnedErr

  /** What the thread remembers of shapes: those it compiled for a peer, those it announced itself. */
  datatype Note = Warmed(shape: Shape) | Announced(shape: Shape)

  /** The thread so far: its log leads to phase p. */
  ghost predicate At(cfg: WorkerConfig, log: seq<Action>, p: Phase) {
    Path(cfg, log) == Some(p)
  }

  lemma Advance(cfg: WorkerConfig, log: seq<Action>, p: Phase, a: Action)
    requires At(cfg, log, p) && Next(cfg, p, a).Some?
    ensures At(cfg, log + [a], Next(cfg, p, a).value)
    ensures Received(log + [a]) == if a.Receive? then Received(log) + [a.request] else Received(log)
  {
    PathGrows(cfg, log, a);
    assert (log + [a])[..|log|] == log;
  }

  lemma AdvanceTwice(cfg: WorkerConfig, log: seq<Action>, p: Phase, a: Action, q: Phase, b: Action, r: Phase)
    requires At(cfg, log, p) && Next(cfg, p, a) == Some(q) && Next(cfg, q, b) == Some(r)
    requires !a.Receive? && !b.Receive?
    ensures At(cfg, log + [a, b], r) && Received(log + [a, b]) == Received(log)
  {
    Advance(cfg, log, p, a);
    Advance(cfg, log + [a], q, b);
    assert log + [a, b] == log + [a] + [b];
  }

  /** No shape is compiled for a peer twice, nor after this thread announced it. */
  ghost predicate NoRepeats(notes: seq<Note>) {
    forall i, j :: 0 <= i < j < |notes| && notes[j].Warmed? ==> notes[i].shape != notes[j].shape
  }

  ghost predicate Remembers(warmed: set<Shape>, notes: seq<Note>) {
    forall s :: s in warmed <==> exists i :: 0 <= i < |notes| && notes[i].shape == s
  }

  lemma NoteOne(warmed: set<Shape>, notes: seq<Note>, note: Note)
    requires NoRepeats(notes) && Remembers(warmed, notes)
    requires note.Warmed? ==> note.shape !in warmed
    ensures NoRepeats(notes + [note]) && Remembers(warmed + {note.shape}, notes + [note])
  {
    forall s | s in warmed + {note.shape}
      ensures exists i :: 0 <= i < |notes| + 1 && (notes + [note])[i].shape == s
    {
      if s in warmed {
        var i :| 0 <= i < |notes| && notes[i].shape == s;
        assert (notes + [note])[i].shape == s;
      } else {
        assert (notes + [note])[|notes|].shape == s;
      }
    }
  }

  // ---- Prewarming for peers ----

  /** The ceiling raise a prewarm calls for, if it gained anything. */
  function RaiseFor(w: TrtWarmup.Sweep): seq<Action> {
    if TrtWarmup.Gained(w) then [RaiseCeiling(w)] else []
  }

  function Raises(sweeps: seq<TrtWarmup.Sweep>): seq<Action> {
    if sweeps == [] then [] else Raises(sweeps[..|sweeps| - 1]) + RaiseFor(sweeps[|sweeps| - 1])
  }

  lemma RaisesGrow(sweeps: seq<TrtWarmup.Sweep>, w: TrtWarmup.Sweep)
    ensures Raises(sweeps + [w]) == Raises(sweeps) + RaiseFor(w)
  {
    assert (sweeps + [w])[..|sweeps|] == sweeps;
  }

  /** The raises are exactly the prewarms of which some run succeeded. */
  lemma {:induction false} RaisedIff(sweeps: seq<TrtWarmup.Sweep>, a: Action)
    requires forall i :: 0 <= i < |sweeps| ==> TrtWarmup.Swept(sweeps[i])
    ensures a in Raises(sweeps) <==>
      a.RaiseCeiling? && a.sweep in sweeps
      && exists k :: 0 <= k < |a.sweep.runs| && a.sweep.runs[k].outcome.succeeded
  {
    hide TrtWarmup.Swept;
    if sweeps != [] {
      var last, front := sweeps[|sweeps| - 1], sweeps[..|sweeps| - 1];
      RaisedIff(front, a);
      TrtWarmup.GainedIff(last);
      assert sweeps == front + [last];
      hide TrtWarmup.Gained;
    }
  }

  /** One prewarm for each shape, of just that shape. */
  ghost predicate SweptEach(sweeps: seq<TrtWarmup.Sweep>, shapes: seq<Shape>) {
    |sweeps| == |shapes| && forall i :: 0 <= i < |sweeps| ==> TrtWarmup.Swept(sweeps[i]) && sweeps[i].shapes == [shapes[i]]
  }

  lemma SweptOneMore(sweeps: seq<TrtWarmup.Sweep>, shapes: seq<Shape>, w: TrtWarmup.Sweep, shape: Shape)
    requires SweptEach(sweeps, shapes) && TrtWarmup.Swept(w) && w.shapes == [shape]
    ensures SweptEach(sweeps + [w], shapes + [shape])
  {
    hide TrtWarmup.Swept;
  }

  function WarmedNotes(shapes: seq<Shape>): seq<Note> {
    seq(|shapes|, i requires 0 <= i < |shapes| => Warmed(shapes[i]))
  }

  /** The log grown by the raises of these prewarms. */
  ghost predicate LogDrained(cfg: WorkerConfig, log: seq<Action>, failures: nat, sweeps: seq<TrtWarmup.Sweep>) {
    At(cfg, log + Raises(sweeps), Head(true, failures)) && Received(log + Raises(sweeps)) == Received(log)
  }

  /** The memory grown by the shapes added. */
  ghost predicate NotesDrained(notes: seq<Note>, added: seq<Shape>, warmed: set<Shape>) {
    NoRepeats(notes + WarmedNotes(added)) && Remembers(warmed, notes + WarmedNotes(added))
  }

  lemma NoneDrained(cfg: WorkerConfig, log: seq<Action>, notes: seq<Note>, failures: nat, warmed: set<Shape>)
    requires At(cfg, log, Head(true, failures)) && NoRepeats(notes) && Remembers(warmed, notes)
    ensures log + Raises([]) == log && notes + WarmedNotes([]) == notes && SweptEach([], [])
    ensures LogDrained(cfg, log, failures, []) && NotesDrained(notes, [], warmed)
  {
    assert log + Raises([]) == log && notes + WarmedNotes([]) == notes;
  }

  lemma DrainOneLog(cfg: WorkerConfig, log: seq<Action>, failures: nat, sweeps: seq<TrtWarmup.Sweep>, w: TrtWarmup.Sweep)
    requires cfg.tensorRt && LogDrained(cfg, log, failures, sweeps) && TrtWarmup.Swept(w) && |w.shapes| == 1
    ensures LogDrained(cfg, log, failures, sweeps + [w])
    ensures log + Raises(sweeps + [w]) == log + Raises(sweeps) + RaiseFor(w)
  {
    RaisesGrow(sweeps, w);
    var sofar := log + Raises(sweeps);
    hide At, Received, Raises, TrtWarmup.Swept;
    assert log + Raises(sweeps + [w]) == sofar + RaiseFor(w);
    if TrtWarmup.Gained(w) {
      assert MayRaise(cfg, Head(true, failures), w);
      Advance(cfg, sofar, Head(true, failures), RaiseCeiling(w));
    } else {
      assert sofar + [] == sofar;
    }
  }

  lemma DrainOneNote(notes: seq<Note>, added: seq<Shape>, warmed: set<Shape>, shape: Shape)
    requires NotesDrained(notes, added, warmed) && shape !in warmed
    ensures NotesDrained(notes, added + [shape], warmed + {shape})
    ensures WarmedNotes(added + [shape]) == WarmedNotes(added) + [Warmed(shape)]
  {
    hide NoRepeats, Remembers;
    NoteOne(warmed, notes + WarmedNotes(added), Warmed(shape));
    assert WarmedNotes(added + [shape]) == WarmedNotes(added) + [Warmed(shape)];
    assert notes + WarmedNotes(added) + [Warmed(shape)] == notes + WarmedNotes(added + [shape]);
  }

  /** The memory grown by exactly the shapes the messages name. */
  ghost predicate Heeded(news: seq<Message>, warmed: set<Shape>, warmed': set<Shape>) {
    forall s :: s in warmed' <==> s in warmed || Ready(s) in news
  }

  lemma HeedOne(news: seq<Message>, warmed: set<Shape>, warmed': set<Shape>, m: Message)
    requires Heeded(news, warmed, warmed')
    ensures Heeded(news + [m], warmed, if m.Ready? then warmed' + {m.shape} else warmed')
  {}

  /** The log, the notes and the memory after prewarming these shapes for peers. */
  ghost predicate Drained(cfg: WorkerConfig, log: seq<Action>, notes: seq<Note>, failures: nat, added: seq<Shape>,
                          sweeps: seq<TrtWarmup.Sweep>, warmed': set<Shape>, notes': seq<Note>, log': seq<Action>) {
    && notes' == notes + WarmedNotes(added) && log' == log + Raises(sweeps) && SweptEach(sweeps, added)
    && LogDrained(cfg, log, failures, sweeps) && NotesDrained(notes, added, warmed')
  }

  lemma DrainOne(cfg: WorkerConfig, log: seq<Action>, notes: seq<Note>, failures: nat, added: seq<Shape>,
                 sweeps: seq<TrtWarmup.Sweep>, warmed': set<Shape>, notes': seq<Note>, log': seq<Action>,
                 shape: Shape, w: TrtWarmup.Sweep)
    requires cfg.tensorRt && Drained(cfg, log, notes, failures, added, sweeps, warmed', notes', log')
    requires shape !in warmed' && TrtWarmup.Swept(w) && w.shapes == [shape]
    ensures Drained(cfg, log, notes, failures, added + [shape], sweeps + [w], warmed' + {shape}, notes' + [Warmed(shape)],
                    log' + RaiseFor(w))
  {
    hide RaiseFor, WarmedNotes, SweptEach, LogDrained, NotesDrained, Raises, TrtWarmup.Swept;
    SweptOneMore(sweeps, added, w, shape);
    DrainOneLog(cfg, log, failures, sweeps, w);
    DrainOneNote(notes, added, warmed', shape);
    assert notes + (WarmedNotes(added) + [Warmed(shape)]) == notes' + [Warmed(shape)];
  }

  /** Every shape a message names, new to this thread, is prewarmed once on its session, and each
      gain raises the ceiling. */
  method DrainEnginePropagation(cfg: WorkerConfig, session: TrtWarmup.Session, news: seq<Message>, engines: Shape -> nat,
                                warmed: set<Shape>, notes: seq<Note>, log: seq<Action>, ghost failures: nat)
    returns (warmed': set<Shape>, notes': seq<Note>, log': seq<Action>, added: seq<Shape>, sweeps: seq<TrtWarmup.Sweep>)
    requires cfg.tensorRt && At(cfg, log, Head(true, failures))
    requires NoRepeats(notes) && Remembers(warmed, notes)
    modifies session
    ensures Drained(cfg, log, notes, failures, added, sweeps, warmed', notes', log')
    ensures Heeded(news, warmed, warmed')
  {
    warmed', notes', log', added, sweeps := warmed, notes, log, [], [];
    NoneDrained(cfg, log, notes, failures, warmed);
    assert Heeded(news[..0], warmed, warmed') && Drained(cfg, log, notes, failures, added, sweeps, warmed', notes', log');
    hide Heeded, Drained, RaiseFor, TrtWarmup.Swept;
    for i := 0 to |news|
      invariant Drained(cfg, log, notes, failures, added, sweeps, warmed', notes', log')
      invariant Heeded(news[..i], warmed, warmed')
    {
      HeedOne(news[..i], warmed, warmed', news[i]);
      assert news[..i + 1] == news[..i] + [news[i]];
      if news[i].Ready? && news[i].shape !in warmed' {
        var shape := news[i].shape;
        var sweep := TrtWarmup.Prewarm(session, [shape], engines(shape));
        DrainOne(cfg, log, notes, failures, added, sweeps, warmed', notes', log', shape, sweep);
        added, sweeps := added + [shape], sweeps + [sweep];
        warmed', notes' := warmed' + {shape}, notes' + [Warmed(shape)];
        log' := log' + RaiseFor(sweep);
      } else if news[i].Ready? {
        assert warmed' + {news[i].shape} == warmed';
      }
    }
    assert news[..|news|] == news;
  }

  // ---- Startup, reload, one request ----

  /** In strict mode, plans compiled but not one of them on disk refuse readiness. */
  predicate Refuses(cfg: WorkerConfig, s: Startup, w: TrtWarmup.Sweep) {
    s.Loads? && cfg.strict && w.stats.freshCompiles > 0 && s.enginesAfter == 0
  }

  /** The startup's actions: a failed load; or the load, the prewarm of the whole shard if there is
      one, and then the ready signal or the refusal. */
  ghost predicate StartsAs(cfg: WorkerConfig, s: Startup, w: TrtWarmup.Sweep, log: seq<Action>, ok: bool) {
    if s.LoadFails? then !ok && log == [Spawn, SendLoadError]
    else if !cfg.Prewarms() then ok && log == [Spawn, LoadModels, SendReady(s.delta)]
    else
      && TrtWarmup.Swept(w) && w.shapes == cfg.shard && w.before == s.load.profile && ok == !Refuses(cfg, s, w)
      && log == [Spawn, LoadModels, RaiseCeiling(w), if ok then SendReady(s.delta) else RefuseReadiness]
  }

  method StartupWorker(cfg: WorkerConfig, s: Startup)
    returns (log: seq<Action>, ok: bool, session: TrtWarmup.Session?, ghost sweep: TrtWarmup.Sweep)
    ensures StartsAs(cfg, s, sweep, log, ok)
    ensures ok <==> s.Loads? && !(cfg.Prewarms() && cfg.strict && sweep.stats.freshCompiles > 0 && s.enginesAfter == 0)
    ensures At(cfg, log, if ok then Head(true, 0) else StartupFailed) && Received(log) == []
    ensures session != null ==> fresh(session)
    ensures ok ==> session != null
  {
    log, session := [Spawn], null;
    sweep := EmptySweep();
    Advance(cfg, [], Absent, Spawn);
    hide At, Received, TrtWarmup.Swept;
    if s.LoadFails? {
      Advance(cfg, log, Loading, SendLoadError);
      return log + [SendLoadError], false, session, sweep;
    }
    Advance(cfg, log, Loading, LoadModels);
    log := log + [LoadModels];
    session := new TrtWarmup.Session(s.load.environment, s.load.profile);
    if cfg.Prewarms() {
      var w := TrtWarmup.Prewarm(session, cfg.shard, s.enginesBefore);
      sweep := w;
      assert MayRaise(cfg, Loaded(false), w);
      Advance(cfg, log, Loaded(false), RaiseCeiling(w));
      log := log + [RaiseCeiling(w)];
      if Refuses(cfg, s, w) {
        Advance(cfg, log, Loaded(true), RefuseReadiness);
        return log + [RefuseReadiness], false, session, sweep;
      }
    }
    Advance(cfg, log, Loaded(cfg.Prewarms()), SendReady(s.delta));
    log := log + [SendReady(s.delta)];
    ok := true;
  }

  function EmptySweep(): TrtWarmup.Sweep {
    TrtWarmup.Sweep([], 0, None, None, [], [], TrtWarmup.PrewarmStats(0, false, 0, 0, 0))
  }

  /** The request is an adaptive compile this worker can do. */
  predicate Compiles(cfg: WorkerConfig, r: Request) { r.kind.AdaptiveWarmup? && cfg.tensorRt }

  /** dispatch_request: runs one request on loaded models and replies, or skips it. */
  method DispatchRequest(cfg: WorkerConfig, session: TrtWarmup.Session, g: Receipt, warmed: set<Shape>, notes: seq<Note>,
                         failures: nat, log: seq<Action>)
    returns (outcome: InferenceOutcome, skip: bool, warmed': set<Shape>, notes': seq<Note>, log': seq<Action>,
             sweeps: seq<TrtWarmup.Sweep>)
    requires g.Gets? && At(cfg, log, Busy(g.request, failures))
    requires NoRepeats(notes) && Remembers(warmed, notes)
    modifies session
    ensures skip <==> g.request.kind.Client? && g.gone
    ensures outcome == if skip then Succeeded else OutcomeOf(g.request, g.verdict, failures, cfg.threshold)
    ensures !skip && g.request.kind.Client? ==>
      && (outcome.TrtFatal? <==> g.verdict.trtFatal)
      && (outcome.Rejected? <==> !g.verdict.trtFatal && g.verdict.guardRejected)
      && (outcome.Succeeded? <==> !g.verdict.trtFatal && !g.verdict.guardRejected && !g.verdict.isErr)
    ensures notes' == notes + if !skip && g.request.kind.Client? && !g.verdict.isErr && g.broadcast.Some?
                              then [Announced(g.broadcast.value)] else []
    ensures SweptEach(sweeps, if Compiles(cfg, g.request) then [g.request.kind.shape] else [])
    ensures log' == log + if skip then [Skip(g.request)] else Raises(sweeps) + [Reply(g.request, g.verdict)]
    ensures At(cfg, log', if skip then Head(true, failures) else AfterReply(outcome, failures))
    ensures Received(log') == Received(log)
    ensures NoRepeats(notes') && Remembers(warmed', notes')
  {
    hide At, Received, NoRepeats, Remembers, TrtWarmup.Swept, Raises;
    var r := g.request;
    outcome, skip, warmed', notes', log', sweeps := Succeeded, false, warmed, notes, log, [];
    NoRaises();
    if r.kind.Client? && g.gone {
      Advance(cfg, log', Busy(r, failures), Skip(r));
      return Succeeded, true, warmed', notes', log' + [Skip(r)], sweeps;
    }
    if Compiles(cfg, r) {
      var sweep := TrtWarmup.Prewarm(session, [r.kind.shape], g.engines);
      sweeps := [sweep];
      OneRaise(sweep);
      if TrtWarmup.Gained(sweep) {
        assert MayRaise(cfg, Busy(r, failures), sweep);
        Advance(cfg, log', Busy(r, failures), RaiseCeiling(sweep));
        log' := log' + [RaiseCeiling(sweep)];
      }
    }
    if r.kind.Client? {
      if !g.verdict.isErr && g.broadcast.Some? {
        NoteOne(warmed', notes', Announced(g.broadcast.value));
        warmed', notes' := warmed' + {g.broadcast.value}, notes' + [Announced(g.broadcast.value)];
      }
      outcome := Classify(g.verdict, failures, cfg.threshold);
    }
    assert log' == log + Raises(sweeps);
    Advance(cfg, log', Busy(r, failures), Reply(r, g.verdict));
    log' := log' + [Reply(r, g.verdict)];
  }

  lemma NoRaises()
    ensures Raises([]) == []
  {}

  lemma OneRaise(w: TrtWarmup.Sweep)
    ensures Raises([w]) == RaiseFor(w)
  {
    assert [w][..0] == [];
  }

  /** Restores the models of an unloaded worker before a request, or refuses the request. */
  method ReloadModels(cfg: WorkerConfig, g: Receipt, failures: nat, log: seq<Action>)
    returns (session: TrtWarmup.Session?, log': seq<Action>)
    requires g.Gets? && At(cfg, log, Reloading(g.request, failures))
    ensures session != null <==> g.reload.Some?
    ensures session != null ==> fresh(session)
    ensures log' == log + if session != null then [WorkerLoop.ReloadModels, RaiseLoaded] else [ReplyLoadError(g.request)]
    ensures At(cfg, log', if session != null then Busy(g.request, failures) else Head(false, failures))
    ensures Received(log') == Received(log)
  {
    var r := g.request;
    if g.reload.Some? {
      AdvanceTwice(cfg, log, Reloading(r, failures), WorkerLoop.ReloadModels, Reloaded(r, failures), RaiseLoaded, Busy(r, failures));
      session := new TrtWarmup.Session(g.reload.value.environment, g.reload.value.profile);
      return session, log + [WorkerLoop.ReloadModels, RaiseLoaded];
    }
    Advance(cfg, log, Reloading(r, failures), ReplyLoadError(r));
    return null, log + [ReplyLoadError(r)];
  }

  // ---- The whole thread ----

  /** The requests the environment offers, in order. */
  function Offered(turns: seq<Turn>): seq<Request> {
    if turns == [] then []
    else
      var t, front := turns[|turns| - 1], Offered(turns[..|turns| - 1]);
      if t.recv.Gets? then front + [t.recv.request] else front
  }

  predicate ReturnsError(p: Phase) {
    p == Exited(FatalBuild) || p == Exited(StartupError)
  }

  /** The phase the thread ends in for each ending. */
  ghost predicate EndsAt(end: Ending, p: Phase) {
    match end
    case Waiting => p.Head?
    case ReturnedOk => p == Exited(ChannelClosed)
    case ReturnedErr => ReturnsError(p)
  }

  ghost predicate Ends(cfg: WorkerConfig, log: seq<Action>, end: Ending) {
    Path(cfg, log).Some? && EndsAt(end, Path(cfg, log).value)
  }

  /** The thread waits without models. */
  ghost predicate Unloaded(cfg: WorkerConfig, log: seq<Action>) {
    Path(cfg, log).Some? && Path(cfg, log).value.Head? && !Path(cfg, log).value.models
  }

  /** What a run of the thread promises: its actions are a path of the phase automaton ending as
      the return says; it took the offered requests in order, all of them while it is waiting; it
      returns cleanly only when the channel closed, and waits without models after a timeout. */
  ghost predicate Completed(cfg: WorkerConfig, turns: seq<Turn>, log: seq<Action>, notes: seq<Note>, used: nat, end: Ending) {
    && used <= |turns| && (end.Waiting? ==> used == |turns|)
    && Ends(cfg, log, end)
    && Received(log) == Offered(turns[..used])
    && (end.ReturnedOk? ==> used > 0 && turns[used - 1].recv.Closes?)
    && (end.Waiting? && used > 0 && turns[used - 1].recv.TimesOut? && cfg.idleTimeout ==> Unloaded(cfg, log))
    && NoRepeats(notes)
  }

  lemma EndsHere(cfg: WorkerConfig, turns: seq<Turn>, log: seq<Action>, notes: seq<Note>, used: nat, p: Phase, end: Ending)
    requires At(cfg, log, p) && EndsAt(end, p) && NoRepeats(notes)
    requires used <= |turns| && (end.Waiting? ==> used == |turns|) && Received(log) == Offered(turns[..used])
    requires end.ReturnedOk? ==> used > 0 && turns[used - 1].recv.Closes?
    requires p.Head? && p.models ==> !(used > 0 && turns[used - 1].recv.TimesOut? && cfg.idleTimeout)
    ensures Completed(cfg, turns, log, notes, used, end)
  {}

  lemma OfferedGrows(turns: seq<Turn>, i: nat)
    requires i < |turns|
    ensures Offered(turns[..i + 1]) ==
      if turns[i].recv.Gets? then Offered(turns[..i]) + [turns[i].recv.request] else Offered(turns[..i])
  {
    assert turns[..i + 1][..i] == turns[..i];
  }

  lemma AfterDrain(cfg: WorkerConfig, log: seq<Action>, notes: seq<Note>, failures: nat, sweeps: seq<TrtWarmup.Sweep>,
                   added: seq<Shape>, warmed': set<Shape>, notes': seq<Note>, log': seq<Action>)
    requires Drained(cfg, log, notes, failures, added, sweeps, warmed', notes', log')
    ensures At(cfg, log', Head(true, failures)) && Received(log') == Received(log)
    ensures NoRepeats(notes') && Remembers(warmed', notes')
    ensures log <= log' && notes <= notes'
  {}

  lemma NothingYet(turns: seq<Turn>)
    ensures Offered(turns[..0]) == [] && NoRepeats([]) && Remembers({}, [])
  {}

  // ---- Peers are heard ----

  /** The log is at the head of the loop. */
  ghost predicate AtHead(cfg: WorkerConfig, log: seq<Action>) {
    Path(cfg, log).Some? && Path(cfg, log).value.Head?
  }

  ghost predicate Noted(notes: seq<Note>, s: Shape) {
    exists i :: 0 <= i < |notes| && notes[i].shape == s
  }

  /** A turn that began here, with models on TensorRT, has noted every shape its messages name. */
  ghost predicate HeardTurn(cfg: WorkerConfig, news: seq<Message>, before: seq<Action>, notes: seq<Note>) {
    && AtHead(cfg, before)
    && (cfg.tensorRt && Path(cfg, before).value.models ==> forall s :: Ready(s) in news ==> Noted(notes, s))
  }

  /** The turns so far each began at its mark in the log, and have all been heard. */
  ghost predicate Heard(cfg: WorkerConfig, turns: seq<Turn>, log: seq<Action>, notes: seq<Note>, marks: seq<nat>) {
    |marks| <= |turns| && forall i :: 0 <= i < |marks| ==> marks[i] <= |log| && HeardTurn(cfg, turns[i].news, log[..marks[i]], notes)
  }

  lemma HeardGrows(cfg: WorkerConfig, turns: seq<Turn>, log: seq<Action>, notes: seq<Note>, marks: seq<nat>,
                   log': seq<Action>, notes': seq<Note>)
    requires Heard(cfg, turns, log, notes, marks) && log <= log' && notes <= notes'
    ensures Heard(cfg, turns, log', notes', marks)
  {
    hide AtHead;
    assert forall s :: Noted(notes, s) ==> Noted(notes', s);
    forall i | 0 <= i < |marks| ensures marks[i] <= |log'| && HeardTurn(cfg, turns[i].news, log'[..marks[i]], notes') {
      assert log'[..marks[i]] == log[..marks[i]];
    }
  }

  lemma HeardNext(cfg: WorkerConfig, turns: seq<Turn>, log: seq<Action>, notes: seq<Note>, marks: seq<nat>,
                  at: nat, models: bool, failures: nat, warmed: set<Shape>, warmed': set<Shape>)
    requires Heard(cfg, turns, log, notes, marks) && |marks| < |turns| && at <= |log|
    requires At(cfg, log[..at], Head(models, failures)) && Remembers(warmed', notes)
    requires cfg.tensorRt && models ==> Heeded(turns[|marks|].news, warmed, warmed')
    ensures Heard(cfg, turns, log, notes, marks + [at])
  {
    if cfg.tensorRt && models {
      forall s | Ready(s) in turns[|marks|].news ensures Noted(notes, s) {
        assert s in warmed';
      }
    }
    assert HeardTurn(cfg, turns[|marks|].news, log[..at], notes);
    hide HeardTurn;
  }

  // ---- The loop ----

  /** One request: reloads the models if need be, dispatches, and unloads if the breaker tripped. */
  method ServeRequest(cfg: WorkerConfig, session: TrtWarmup.Session?, g: Receipt, warmed: set<Shape>, notes: seq<Note>,
                      failures: nat, log: seq<Action>)
    returns (session': TrtWarmup.Session?, warmed': set<Shape>, notes': seq<Note>, failures': nat, log': seq<Action>, fatal: bool)
    requires g.Gets? && At(cfg, log, Head(session != null, failures))
    requires NoRepeats(notes) && Remembers(warmed, notes)
    modifies session
    ensures session' == session || (session' != null ==> fresh(session'))
    ensures At(cfg, log', if fatal then Fatal else Head(session' != null, failures'))
    ensures log <= log' && notes <= notes' && Received(log') == Received(log) + [g.request]
    ensures NoRepeats(notes') && Remembers(warmed', notes')
  {
    hide At, NoRepeats, Remembers, Received, Raises, SweptEach, TrtWarmup.Swept;
    session', warmed', notes', failures', fatal := session, warmed, notes, failures, false;
    Advance(cfg, log, Head(session != null, failures), Receive(g.request));
    log' := log + [Receive(g.request)];
    if session' == null {
      session', log' := ReloadModels(cfg, g, failures, log');
      if session' == null {
        return;
      }
    }
    var outcome, skip, sweeps;
    outcome, skip, warmed', notes', log', sweeps := DispatchRequest(cfg, session', g, warmed, notes, failures, log');
    if skip {
      return;
    }
    if outcome.TrtFatal? {
      fatal := true;
      return;
    }
    failures' := NextFailures(outcome, failures);
    if ShouldUnload(outcome) {
      AdvanceTwice(cfg, log', Breaking, DropModels, Unloading(0), LowerLoaded, Head(false, 0));
      session', log' := null, log' + [DropModels, LowerLoaded];
    }
  }

  /** run_worker, whatever the environment does. */
  method RunWorker(cfg: WorkerConfig, startup: Startup, turns: seq<Turn>)
    returns (log: seq<Action>, notes: seq<Note>, used: nat, end: Ending, ghost marks: seq<nat>)
    ensures Completed(cfg, turns, log, notes, used, end)
    ensures |marks| == used && Heard(cfg, turns, log, notes, marks)
  {
    var ok, session;
    ghost var startupSweep;
    log, ok, session, startupSweep := StartupWorker(cfg, startup);
    NothingYet(turns);
    hide At, NoRepeats, Remembers, Offered, Received, Ends, Unloaded, Raises, Drained, Completed;
    hide StartsAs, SweptEach, Heeded, TrtWarmup.Swept, HeardTurn;
    used, notes, end, marks := 0, [], Waiting, [];
    assert Heard(cfg, turns, log, notes, marks);
    hide Heard;
    if !ok {
      Advance(cfg, log, StartupFailed, Exit);
      EndsHere(cfg, turns, log + [Exit], notes, used, Exited(StartupError), ReturnedErr);
      HeardGrows(cfg, turns, log, notes, marks, log + [Exit], notes);
      return log + [Exit], notes, used, ReturnedErr, marks;
    }
    var failures, warmed := 0, {};
    while used < |turns|
      invariant used <= |turns| && |marks| == used
      invariant session != null ==> fresh(session)
      invariant At(cfg, log, Head(session != null, failures))
      invariant Received(log) == Offered(turns[..used])
      invariant NoRepeats(notes) && Remembers(warmed, notes)
      invariant used > 0 && turns[used - 1].recv.TimesOut? && cfg.idleTimeout ==> session == null
      invariant Heard(cfg, turns, log, notes, marks)
    {
      var turn := turns[used];
      OfferedGrows(turns, used);
      warmed, notes, log, marks := Listen(cfg, session, turns, used, warmed, notes, log, failures, marks);
      used := used + 1;
      ghost var heard, noted := log, notes;
      match turn.recv {
        case TimesOut =>
          if session != null && cfg.idleTimeout {
            AdvanceTwice(cfg, log, Head(true, failures), TimeOut, Unloading(failures), LowerLoaded, Head(false, failures));
            session, log := null, log + [TimeOut, LowerLoaded];
          }
        case Closes =>
          AdvanceTwice(cfg, log, Head(session != null, failures), SeeClosed, Leaving(session != null), Exit, Exited(ChannelClosed));
          EndsHere(cfg, turns, log + [SeeClosed, Exit], notes, used, Exited(ChannelClosed), ReturnedOk);
          HeardGrows(cfg, turns, log, notes, marks, log + [SeeClosed, Exit], notes);
          return log + [SeeClosed, Exit], notes, used, ReturnedOk, marks;
        case Gets(_, _, _, _, _, _) =>
          var fatal;
          session, warmed, notes, failures, log, fatal := ServeRequest(cfg, session, turn.recv, warmed, notes, failures, log);
          if fatal {
            Advance(cfg, log, Fatal, Exit);
            EndsHere(cfg, turns, log + [Exit], notes, used, Exited(FatalBuild), ReturnedErr);
            HeardGrows(cfg, turns, heard, noted, marks, log + [Exit], notes);
            return log + [Exit], notes, used, ReturnedErr, marks;
          }
      }
      HeardGrows(cfg, turns, heard, noted, marks, log, notes);
    }
    assert turns[..used] == turns;
    EndsHere(cfg, turns, log, notes, used, Head(session != null, failures), Waiting);
  }

  /** The start of a turn: with models on TensorRT, the peers' announcements are drained. */
  method Listen(cfg: WorkerConfig, session: TrtWarmup.Session?, turns: seq<Turn>, used: nat, warmed: set<Shape>, notes: seq<Note>,
                log: seq<Action>, ghost failures: nat, ghost marks: seq<nat>)
    returns (warmed': set<Shape>, notes': seq<Note>, log': seq<Action>, ghost marks': seq<nat>)
    requires used < |turns| && |marks| == used && Heard(cfg, turns, log, notes, marks)
    requires At(cfg, log, Head(session != null, failures)) && NoRepeats(notes) && Remembers(warmed, notes)
    modifies session
    ensures At(cfg, log', Head(session != null, failures)) && Received(log') == Received(log)
    ensures NoRepeats(notes') && Remembers(warmed', notes')
    ensures |marks'| == used + 1 && Heard(cfg, turns, log', notes', marks')
  {
    hide At, NoRepeats, Remembers, Received, Raises, Drained, Heeded, Heard, SweptEach, TrtWarmup.Swept;
    warmed', notes', log' := warmed, notes, log;
    if cfg.tensorRt && session != null {
      var added, sweeps;
      warmed', notes', log', added, sweeps := DrainEnginePropagation(cfg, session, turns[used].news, turns[used].engines, warmed, notes, log, failures);
      AfterDrain(cfg, log, notes, failures, sweeps, added, warmed', notes', log');
    }
    HeardGrows(cfg, turns, log, notes, marks, log', notes');
    assert log'[..|log|] == log;
    HeardNext(cfg, turns, log', notes', marks, |log|, session != null, failures, warmed, warmed');
    marks' := marks + [|log|];
  }
}
