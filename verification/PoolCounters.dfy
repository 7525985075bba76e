/** What `loaded_workers` and `live_workers` mean, in every interleaving. */
module PoolCounters {
  import opened Numbers
  import opened WorkerLoop
  import opened WorkerPool

  /** The worker's session is in memory. */
  predicate HoldsModels(p: Phase) {
    p.Loaded? || (p.Head? && p.models) || p.Reloaded? || p.Busy? || p.Breaking? || p.Fatal? || (p.Leaving? && p.models)
  }

  /** The worker's share of `loaded_workers`. A fatal exit never gives its share back. */
  predicate Credited(p: Phase) {
    || (p.Head? && p.models)
    || p.Unloading? || p.Busy? || p.Breaking? || p.Fatal? || p == Exited(FatalBuild)
  }

  predicate Departed(p: Phase) { p.Exited? }

  /** A worker gives its models up only by an idle timeout, if that is configured, after a reply that
      tripped the breaker, or with its own end; it gets them only by loading. */
  lemma ModelsComeAndGo(cfg: WorkerConfig, p: Phase, a: Action)
    requires Next(cfg, p, a).Some?
    ensures var q := Next(cfg, p, a).value;
      && (HoldsModels(p) && !HoldsModels(q) ==>
            (a.TimeOut? && p.Head? && cfg.idleTimeout) || (a.DropModels? && p.Breaking?) || a.RefuseReadiness? || a.Exit?)
      && (!HoldsModels(p) && HoldsModels(q) ==> a.LoadModels? || a.ReloadModels?)
      && (a.TimeOut? || a.DropModels? ==> HoldsModels(p) && !HoldsModels(q))
  {}

  function Count(ws: seq<Phase>, f: Phase -> bool): nat {
    if ws == [] then 0 else Count(ws[..|ws| - 1], f) + if f(ws[|ws| - 1]) then 1 else 0
  }

  lemma {:induction false} CountUpdate(ws: seq<Phase>, w: nat, p: Phase, f: Phase -> bool)
    requires w < |ws|
    ensures Count(ws[w := p], f) + (if f(ws[w]) then 1 else 0) == Count(ws, f) + if f(p) then 1 else 0
  {
    var last := |ws| - 1;
    if w == last {
      assert ws[w := p][..last] == ws[..last];
    } else {
      CountUpdate(ws[..last], w, p, f);
      assert ws[w := p][..last] == ws[..last][w := p];
    }
  }

  lemma {:induction false} CountBounds(ws: seq<Phase>, f: Phase -> bool)
    ensures Count(ws, f) <= |ws|
    ensures Count(ws, f) == 0 <==> forall w :: 0 <= w < |ws| ==> !f(ws[w])
  {
    if ws != [] {
      CountBounds(ws[..|ws| - 1], f);
      assert forall w :: 0 <= w < |ws| - 1 ==> ws[w] == ws[..|ws| - 1][w];
    }
  }

  /** Success signals in the channel. */
  function Ups(ready: seq<Signal>): nat {
    if ready == [] then 0 else (if ready[0].Up? then 1 else 0) + Ups(ready[1..])
  }

  lemma {:induction false} UpsAppend(ready: seq<Signal>, x: Signal)
    ensures Ups(ready + [x]) == Ups(ready) + if x.Up? then 1 else 0
  {
    if ready != [] {
      assert (ready + [x])[1..] == ready[1..] + [x];
      UpsAppend(ready[1..], x);
    }
  }

  /** Ready signals sent but not yet counted. */
  function Uncounted(s: Pool): nat {
    Ups(s.ready) + if s.init.Counting? then 1 else 0
  }

  predicate LoadedExact(s: Pool) {
    s.loaded == Wrap(Count(s.workers, Credited) - Uncounted(s))
  }

  predicate LiveExact(s: Pool) {
    s.live == |s.workers| - Count(s.workers, Departed)
  }

  /** How an action moves the worker's share. */
  function ShareMoves(p: Phase, a: Action): int {
    if a.SendReady? || a.RaiseLoaded? then 1
    else if Lowers(p, a) then -1
    else 0
  }

  lemma ShareNext(cfg: WorkerConfig, p: Phase, a: Action)
    requires Next(cfg, p, a).Some?
    ensures var q := Next(cfg, p, a).value;
      (if Credited(q) then 1 else 0) == (if Credited(p) then 1 else 0) + ShareMoves(p, a)
    ensures !p.Exited? && (Next(cfg, p, a).value.Exited? <==> a.Exit?)
  {}

  lemma WrapShift(x: int, d: int)
    ensures Wrap(Wrap(x) + d) == Wrap(x + d)
  {}

  lemma SignalsMove(ready: seq<Signal>, w: nat, a: Action)
    ensures Ups(SignalsAfter(ready, w, a)) == Ups(ready) + if a.SendReady? then 1 else 0
  {
    if a.SendReady? {
      UpsAppend(ready, Up(w, a.delta));
    } else if a.SendLoadError? {
      UpsAppend(ready, Down(w));
    }
  }

  lemma LoadedMoves(loaded: nat, difference: int, p: Phase, a: Action)
    requires loaded == Wrap(difference)
    ensures LoadedAfter(loaded, p, a) == Wrap(difference + ShareMoves(p, a) - if a.SendReady? then 1 else 0)
  {
    WrapShift(difference, 1);
    WrapShift(difference, -1);
  }

  lemma ActKeepsLoaded(cs: seq<WorkerConfig>, s: Pool, w: nat, a: Action)
    requires |cs| == |s.workers| && LoadedExact(s) && ActStep(cs, s, w, a).Some?
    ensures LoadedExact(ActStep(cs, s, w, a).value)
  {
    hide *;
    ActMovesCounters(cs, s, w, a);
    var p, s' := s.workers[w], ActStep(cs, s, w, a).value;
    LoadedMeans(s);
    LoadedMoves(s.loaded, Count(s.workers, Credited) - Uncounted(s), p, a);
    CreditsMove(cs, s, w, a);
    UncountedMoves(cs, s, w, a);
    LoadedMeans(s');
  }

  lemma LoadedMeans(s: Pool)
    ensures LoadedExact(s) <==> s.loaded == Wrap(Count(s.workers, Credited) - Uncounted(s))
  {}

  lemma CreditsMove(cs: seq<WorkerConfig>, s: Pool, w: nat, a: Action)
    requires |cs| == |s.workers| && ActStep(cs, s, w, a).Some?
    ensures Count(ActStep(cs, s, w, a).value.workers, Credited) == Count(s.workers, Credited) + ShareMoves(s.workers[w], a)
  {
    var p, q := s.workers[w], Next(cs[w], s.workers[w], a).value;
    ShareNext(cs[w], p, a);
    CountUpdate(s.workers, w, q, Credited);
    ActMovesCounters(cs, s, w, a);
    hide Credited, Count, Next, ActStep, ShareMoves;
  }

  lemma UncountedMoves(cs: seq<WorkerConfig>, s: Pool, w: nat, a: Action)
    requires |cs| == |s.workers| && ActStep(cs, s, w, a).Some?
    ensures Uncounted(ActStep(cs, s, w, a).value) == Uncounted(s) + if a.SendReady? then 1 else 0
  {
    SignalsMove(s.ready, w, a);
    ActMovesCounters(cs, s, w, a);
    hide Next, ActStep, Ups, SignalsAfter;
  }

  lemma ActMovesCounters(cs: seq<WorkerConfig>, s: Pool, w: nat, a: Action)
    requires |cs| == |s.workers| && ActStep(cs, s, w, a).Some?
    ensures w < |s.workers| && Next(cs[w], s.workers[w], a).Some?
    ensures var s', p := ActStep(cs, s, w, a).value, s.workers[w];
      && s'.workers == s.workers[w := Next(cs[w], p, a).value] && s'.init == s.init
      && s'.loaded == LoadedAfter(s.loaded, p, a) && s'.live == LiveAfter(s.live, a)
      && s'.ready == SignalsAfter(s.ready, w, a)
  {
    hide Next, SignalsAfter, LoadedAfter, LiveAfter, FatesAfter, RepliesAfter, RaisesAfter, CeilingAfter, HullAfter;
  }

  lemma InitKeepsLoaded(s: Pool, step: Step)
    requires LoadedExact(s) && InitStep(s, step).Some?
    ensures LoadedExact(InitStep(s, step).value)
  {
    var s' := InitStep(s, step).value;
    InitMovesCounters(s, step);
    WrapShift(Count(s.workers, Credited) - Uncounted(s), 1);
    hide *;
    assert s'.loaded == Wrap(Count(s'.workers, Credited) - Uncounted(s')) by {
      LoadedMeans(s);
    }
    LoadedMeans(s');
  }

  /** Init counts a signal by raising the counter; nothing else it does touches either. */
  lemma InitMovesCounters(s: Pool, step: Step)
    requires InitStep(s, step).Some?
    ensures var s' := InitStep(s, step).value;
      && Count(s'.workers, Credited) == Count(s.workers, Credited)
      && (if step.CountReady? then s'.loaded == Wrap(s.loaded + 1) && Uncounted(s') == Uncounted(s) - 1
          else s'.loaded == s.loaded && Uncounted(s') == Uncounted(s))
  {
    if step.SpawnNext? {
      CountUpdate(s.workers, s.init.id, Loading, Credited);
    }
    hide Wrap, Count;
  }

  lemma ActKeepsLive(cs: seq<WorkerConfig>, s: Pool, w: nat, a: Action)
    requires |cs| == |s.workers| <= USIZE_MAX && LiveExact(s) && ActStep(cs, s, w, a).Some?
    ensures LiveExact(ActStep(cs, s, w, a).value)
    ensures a.Exit? ==> s.live >= 1
  {
    ActMovesCounters(cs, s, w, a);
    hide Next, Count, ActStep, Departed, LiveAfter, Wrap;
    var p, q := s.workers[w], Next(cs[w], s.workers[w], a).value;
    ExitDeparts(cs[w], p, a);
    CountUpdate(s.workers, w, q, Departed);
    CountBounds(s.workers[w := q], Departed);
    LiveMoves(s.live, a);
  }

  lemma ExitDeparts(cfg: WorkerConfig, p: Phase, a: Action)
    requires Next(cfg, p, a).Some?
    ensures !Departed(p) && (Departed(Next(cfg, p, a).value) <==> a.Exit?)
  {
    ShareNext(cfg, p, a);
  }

  lemma LiveMoves(live: nat, a: Action)
    requires live <= USIZE_MAX
    ensures LiveAfter(live, a) == if !a.Exit? then live else if live >= 1 then live - 1 else USIZE_MAX
  {}

  lemma InitKeepsLive(s: Pool, step: Step)
    requires LiveExact(s) && InitStep(s, step).Some?
    ensures LiveExact(InitStep(s, step).value)
  {
    if step.SpawnNext? {
      CountUpdate(s.workers, s.init.id, Loading, Departed);
    }
    hide Wrap, Count;
  }

  lemma StartCounts(cs: seq<WorkerConfig>)
    ensures LoadedExact(Start(cs)) && LiveExact(Start(cs))
  {
    CountBounds(Start(cs).workers, Credited);
    CountBounds(Start(cs).workers, Departed);
  }

  /** In every reachable state `loaded_workers` plus the signals not yet counted is, modulo the
      counter's width, the number of credited workers; `live_workers` is the workers not exited. */
  lemma {:induction false} CountersExact(cs: seq<WorkerConfig>, steps: seq<Step>)
    requires ValidConfig(cs) && Run(cs, steps).Some?
    ensures LoadedExact(Run(cs, steps).value) && LiveExact(Run(cs, steps).value)
  {
    if steps == [] {
      StartCounts(cs);
    } else {
      var front, step := steps[..|steps| - 1], steps[|steps| - 1];
      CountersExact(cs, front);
      var s := Run(cs, front).value;
      hide LoadedExact, LiveExact, ActStep, InitStep;
      if step.Act? {
        ActKeepsLoaded(cs, s, step.worker, step.action);
        ActKeepsLive(cs, s, step.worker, step.action);
      } else if step.Submit? || step.CloseChannel? || step.DropReceiver? {
        ClientKeepsCounters(s, step);
      } else {
        InitKeepsLoaded(s, step);
        InitKeepsLive(s, step);
      }
    }
  }

  lemma ClientKeepsCounters(s: Pool, step: Step)
    requires LoadedExact(s) && LiveExact(s) && ClientStep(s, step).Some?
    ensures LoadedExact(ClientStep(s, step).value) && LiveExact(ClientStep(s, step).value)
  {}
}
