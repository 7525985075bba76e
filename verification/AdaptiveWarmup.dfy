/** The adaptive background warmup task (src/embedder/adaptive_warmup.rs). */
module AdaptiveWarmup {
  import opened WarmupShapes
  import opened Sorting

  /** The clock counts nanoseconds. */
  const SECOND: nat := 1_000_000_000
  const HOUR: nat := 3600 * SECOND

  datatype Config = Config(quietSecs: nat, maxShapesPerHour: nat)

  /** A compile that succeeded, when, after how many starts of the hourly budget, and the milliseconds
      it reported. */
  datatype Success = Success(shape: Shape, time: nat, window: nat, ms: nat)

  /** The task's variables and, after `now`, its history. */
  datatype Loop = Loop(
    pending: seq<Shape>,
    warmed: set<Shape>,
    shapesThisHour: nat,
    hourStart: nat,
    now: nat,
    accepted: seq<Shape>,
    fired: seq<Shape>,
    resets: seq<nat>,
    successes: seq<Success>,
    broadcasts: seq<Shape>,
    exited: bool)

  datatype Wakeup = Suspect(shape: Shape) | SendersGone | Slept

  datatype Ack = Compiled(ms: nat) | Failed | Dropped

  /** One second of the quiet window: what arrives and how deep the queue then is. */
  datatype Second = Second(suspects: seq<Shape>, depth: nat, lag: nat)

  /** What the environment does during one turn of the loop. Lags are what the clock adds beyond
      the sleeps: before the budget check, at the reset, and while a compile runs. */
  datatype Turn = Turn(suspects: seq<Shape>, lag: nat, resetLag: nat, wakeup: Wakeup, depth: nat,
                       seconds: nat -> Second, sent: bool, ack: Ack, work: nat)

  function Begin(now: nat): Loop {
    Loop([], {}, 0, now, now, [], [], [now], [], [], false)
  }

  function Accept(s: Loop, x: Shape): Loop {
    if x in s.warmed || x in s.pending then s
    else s.(pending := s.pending + [x], accepted := s.accepted + [x])
  }

  function DrainRx(s: Loop, xs: seq<Shape>): Loop {
    if xs == [] then s else Accept(DrainRx(s, xs[..|xs| - 1]), xs[|xs| - 1])
  }

  /** The suspects that are new given those already known, each once, in order of arrival. */
  function NewOnes(xs: seq<Shape>, known: set<Shape>): seq<Shape> {
    if xs == [] then []
    else
      var front, x := NewOnes(xs[..|xs| - 1], known), xs[|xs| - 1];
      if x in known || x in front then front else front + [x]
  }

  /** The loop with these shapes appended to its queue. */
  function Queued(s: Loop, xs: seq<Shape>): Loop { s.(pending := s.pending + xs, accepted := s.accepted + xs) }

  lemma {:induction false} NewOnesAreNew(xs: seq<Shape>, known: set<Shape>, x: Shape)
    ensures Distinct(NewOnes(xs, known))
    ensures x in NewOnes(xs, known) <==> x in xs && x !in known
  {
    if xs != [] {
      NewOnesAreNew(xs[..|xs| - 1], known, x);
      NewOnesAreNew(xs[..|xs| - 1], known, xs[|xs| - 1]);
      assert xs == xs[..|xs| - 1] + [xs[|xs| - 1]];
    }
  }

  /** Draining appends exactly the suspects that are neither warmed nor pending. */
  lemma {:induction false} DrainAppends(s: Loop, xs: seq<Shape>)
    ensures DrainRx(s, xs) == Queued(s, NewOnes(xs, s.warmed + ToSet(s.pending)))
  {
    if xs == [] {
      assert Queued(s, []) == s;
    } else {
      var front, x, known := xs[..|xs| - 1], xs[|xs| - 1], s.warmed + ToSet(s.pending);
      DrainAppends(s, front);
      assert x in s.pending + NewOnes(front, known) <==> x in s.pending || x in NewOnes(front, known);
      assert s.pending + NewOnes(front, known) + [x] == s.pending + (NewOnes(front, known) + [x]);
      assert s.accepted + NewOnes(front, known) + [x] == s.accepted + (NewOnes(front, known) + [x]);
    }
  }

  function Pass(s: Loop, time: nat): Loop { s.(now := s.now + time) }

  function ResetBudget(s: Loop, resetLag: nat): Loop {
    if s.now - s.hourStart >= HOUR
    then
      var at := s.now + resetLag;
      s.(shapesThisHour := 0, hourStart := at, now := at, resets := s.resets + [at])
    else s
  }

  /** The quiet window from its k-th idle second on: the state it leaves, and whether it was reached. */
  function Quiet(s: Loop, quietSecs: nat, seconds: nat -> Second, k: nat): (Loop, bool)
    requires k <= quietSecs
    decreases quietSecs - k
  {
    if k == quietSecs then (s, true)
    else
      var s' := DrainRx(Pass(s, SECOND + seconds(k).lag), seconds(k).suspects);
      if seconds(k).depth == 0 then Quiet(s', quietSecs, seconds, k + 1) else (s', false)
  }

  /** The window is reached exactly when the queue is empty at each of its seconds, which all pass. */
  lemma {:induction false} QuietReached(s: Loop, quietSecs: nat, seconds: nat -> Second, k: nat)
    requires k <= quietSecs
    ensures Quiet(s, quietSecs, seconds, k).1 <==> forall j :: k <= j < quietSecs ==> seconds(j).depth == 0
    ensures Quiet(s, quietSecs, seconds, k).1 ==> Quiet(s, quietSecs, seconds, k).0.now >= s.now + (quietSecs - k) * SECOND
    decreases quietSecs - k
  {
    if k < quietSecs {
      var s' := DrainRx(Pass(s, SECOND + seconds(k).lag), seconds(k).suspects);
      DrainAppends(Pass(s, SECOND + seconds(k).lag), seconds(k).suspects);
      hide DrainRx;
      if seconds(k).depth == 0 {
        QuietReached(s', quietSecs, seconds, k + 1);
      }
    }
  }

  /** Submits the oldest pending shape and acts on the acknowledgement. */
  function Fire(s: Loop, t: Turn): Loop
    requires s.pending != []
  {
    if !t.sent then s.(exited := true)
    else
      var x, at := s.pending[0], s.now + t.work;
      var s' := s.(pending := s.pending[1..], fired := s.fired + [x], now := at);
      match t.ack
      case Compiled(ms) =>
        s'.(warmed := s.warmed + {x}, shapesThisHour := s.shapesThisHour + 1,
            successes := s.successes + [Success(x, at, |s.resets|, ms)],
            broadcasts := if ms > 0 then s.broadcasts + [x] else s.broadcasts)
      case _ => s'
  }

  function Wake(s: Loop, w: Wakeup): Loop {
    match w
    case Suspect(x) => Accept(s, x)
    case SendersGone => s.(exited := true)
    case Slept => Pass(s, 5 * SECOND)
  }

  /** The head of the loop: drain the channel, then start a new budget if an hour is up. */
  function Prepare(s: Loop, t: Turn): Loop {
    ResetBudget(Pass(DrainRx(s, t.suspects), t.lag), t.resetLag)
  }

  /** One turn of the loop. */
  function Iterate(cfg: Config, s: Loop, t: Turn): Loop {
    var s1 := Prepare(s, t);
    if s1.pending == [] || s1.shapesThisHour >= cfg.maxShapesPerHour then Wake(s1, t.wakeup)
    else if t.depth > 0 then Pass(s1, SECOND)
    else
      var (s2, idle) := Quiet(s1, cfg.quietSecs, t.seconds, 0);
      if idle && s2.pending != [] then Fire(s2, t) else s2
  }

  function Turns(cfg: Config, start: nat, turns: seq<Turn>): Loop {
    if turns == [] then Begin(start)
    else
      var s := Turns(cfg, start, turns[..|turns| - 1]);
      if s.exited then s else Iterate(cfg, s, turns[|turns| - 1])
  }

  // ---- The imperative task ----

  method DrainChannel(xs: seq<Shape>, s: Loop) returns (s': Loop)
    ensures s' == DrainRx(s, xs) == Queued(s, NewOnes(xs, s.warmed + ToSet(s.pending)))
    ensures Distinct(NewOnes(xs, s.warmed + ToSet(s.pending)))
    ensures forall x :: x in NewOnes(xs, s.warmed + ToSet(s.pending)) <==> x in xs && x !in s.warmed && x !in s.pending
  {
    DrainAppends(s, xs);
    forall x {
      NewOnesAreNew(xs, s.warmed + ToSet(s.pending), x);
    }
    s' := s;
    for i := 0 to |xs|
      invariant s' == DrainRx(s, xs[..i])
    {
      assert xs[..i + 1][..i] == xs[..i];
      if xs[i] !in s'.warmed && xs[i] !in s'.pending {
        s' := s'.(pending := s'.pending + [xs[i]], accepted := s'.accepted + [xs[i]]);
      }
    }
    assert xs[..|xs|] == xs;
  }

  method WaitForQuietWindow(quietSecs: nat, seconds: nat -> Second, s: Loop) returns (s': Loop, reached: bool)
    ensures (s', reached) == Quiet(s, quietSecs, seconds, 0)
    ensures reached <==> forall j :: 0 <= j < quietSecs ==> seconds(j).depth == 0
    ensures reached ==> s'.now >= s.now + quietSecs * SECOND
  {
    QuietReached(s, quietSecs, seconds, 0);
    s' := s;
    if quietSecs == 0 {
      return s', true;
    }
    var consecutiveIdle := 0;
    while true
      invariant consecutiveIdle < quietSecs
      invariant Quiet(s, quietSecs, seconds, 0) == Quiet(s', quietSecs, seconds, consecutiveIdle)
      decreases quietSecs - consecutiveIdle
    {
      var second := seconds(consecutiveIdle);
      s' := DrainChannel(second.suspects, Pass(s', SECOND + second.lag));
      if second.depth == 0 {
        consecutiveIdle := consecutiveIdle + 1;
        if consecutiveIdle >= quietSecs {
          return s', true;
        }
      } else {
        return s', false;
      }
    }
  }

  /** run_adaptive_warmup_loop over the turns the environment gives it. */
  method RunAdaptiveWarmupLoop(cfg: Config, start: nat, turns: seq<Turn>) returns (s: Loop)
    ensures s == Turns(cfg, start, turns)
  {
    s := Begin(start);
    for i := 0 to |turns|
      invariant s == Turns(cfg, start, turns[..i])
    {
      assert turns[..i + 1][..i] == turns[..i];
      if s.exited {
        continue;
      }
      s := OneTurn(cfg, s, turns[i]);
    }
    assert turns[..|turns|] == turns;
  }

  method OneTurn(cfg: Config, s: Loop, t: Turn) returns (s': Loop)
    ensures s' == Iterate(cfg, s, t)
  {
    hide DrainRx, Quiet, NewOnes, Queued;
    s' := DrainChannel(t.suspects, s);
    s' := s'.(now := s'.now + t.lag);
    if s'.now - s'.hourStart >= HOUR {
      var at := s'.now + t.resetLag;
      s' := s'.(shapesThisHour := 0, hourStart := at, now := at, resets := s'.resets + [at]);
    }
    if s'.pending == [] || s'.shapesThisHour >= cfg.maxShapesPerHour {
      match t.wakeup {
        case Suspect(x) =>
          if x !in s'.warmed && x !in s'.pending {
            s' := s'.(pending := s'.pending + [x], accepted := s'.accepted + [x]);
          }
        case SendersGone => s' := s'.(exited := true);
        case Slept => s' := s'.(now := s'.now + 5 * SECOND);
      }
      return;
    }
    if t.depth > 0 {
      s' := s'.(now := s'.now + SECOND);
      return;
    }
    var confirmedIdle;
    s', confirmedIdle := WaitForQuietWindow(cfg.quietSecs, t.seconds, s');
    if !confirmedIdle {
      return;
    }
    if s'.pending != [] {
      s' := FireOne(s', t);
    }
  }

  /** Pops and fires one shape. */
  method FireOne(s: Loop, t: Turn) returns (s': Loop)
    requires s.pending != []
    ensures s' == Fire(s, t)
  {
    s' := s;
    if !t.sent {
      return s'.(exited := true);
    }
    var shape, at := s'.pending[0], s'.now + t.work;
    s' := s'.(pending := s'.pending[1..], fired := s'.fired + [shape], now := at);
    if t.ack.Compiled? {
      s' := s'.(warmed := s'.warmed + {shape}, shapesThisHour := s'.shapesThisHour + 1,
                successes := s'.successes + [Success(shape, at, |s'.resets|, t.ack.ms)],
                broadcasts := if t.ack.ms > 0 then s'.broadcasts + [shape] else s'.broadcasts);
    }
  }

  // ---- Pending, fired and warmed shapes ----

  ghost predicate Succeeded(s: Loop, x: Shape) {
    exists i :: 0 <= i < |s.successes| && s.successes[i].shape == x
  }

  /** Pending is duplicate-free, first in first out, and never holds a warmed shape; the warmed
      shapes are those that succeeded, each once. */
  ghost predicate Orderly(s: Loop) {
    && Distinct(s.pending)
    && (forall i :: 0 <= i < |s.pending| ==> s.pending[i] !in s.warmed)
    && s.accepted == s.fired + s.pending
    && (forall i, j :: 0 <= i < j < |s.successes| ==> s.successes[i].shape != s.successes[j].shape)
    && (forall x :: x in s.warmed <==> Succeeded(s, x))
  }

  lemma AcceptKeepsOrder(s: Loop, x: Shape)
    requires Orderly(s)
    ensures Orderly(Accept(s, x))
  {
    assert s.fired + s.pending + [x] == s.fired + (s.pending + [x]);
    forall y ensures Succeeded(Accept(s, x), y) <==> Succeeded(s, y) {}
  }

  lemma FireKeepsOrder(s: Loop, t: Turn)
    requires Orderly(s) && s.pending != []
    ensures Orderly(Fire(s, t))
  {
    var s', x := Fire(s, t), s.pending[0];
    assert s.pending == [x] + s.pending[1..];
    assert s.fired + s.pending == s.fired + [x] + s.pending[1..];
    forall y ensures Succeeded(s', y) <==> Succeeded(s, y) || (y == x && t.sent && t.ack.Compiled?) {
      if t.sent && t.ack.Compiled? {
        assert s'.successes[|s.successes|].shape == x;
        if Succeeded(s, y) {
          var i :| 0 <= i < |s.successes| && s.successes[i].shape == y;
          assert s'.successes[i].shape == y;
        }
      }
    }
    assert Succeeded(s, x) ==> x in s.warmed;
    forall i | 0 <= i < |s.successes| ensures s.successes[i].shape != x {
      assert Succeeded(s, s.successes[i].shape);
    }
  }

  // ---- Waiting changes nothing but the clock and the queue ----

  /** Only time has passed and suspects have queued up. */
  ghost predicate Waited(s: Loop, s': Loop) {
    && s' == s.(pending := s'.pending, accepted := s'.accepted, now := s'.now)
    && s.now <= s'.now && s.pending <= s'.pending
    && (Orderly(s) ==> Orderly(s'))
  }

  lemma WaitedTwice(s: Loop, s': Loop, s'': Loop)
    requires Waited(s, s') && Waited(s', s'')
    ensures Waited(s, s'')
  {}

  lemma AcceptWaits(s: Loop, x: Shape)
    ensures Waited(s, Accept(s, x))
  {
    if Orderly(s) {
      AcceptKeepsOrder(s, x);
    }
  }

  lemma PassWaits(s: Loop, time: nat)
    ensures Waited(s, Pass(s, time))
  {
    if Orderly(s) {
      forall y ensures Succeeded(Pass(s, time), y) <==> Succeeded(s, y) {}
    }
  }

  lemma {:induction false} DrainWaits(s: Loop, xs: seq<Shape>)
    ensures Waited(s, DrainRx(s, xs))
  {
    if xs == [] {
      PassWaits(s, 0);
    } else {
      DrainWaits(s, xs[..|xs| - 1]);
      AcceptWaits(DrainRx(s, xs[..|xs| - 1]), xs[|xs| - 1]);
      hide Waited, Accept;
      WaitedTwice(s, DrainRx(s, xs[..|xs| - 1]), DrainRx(s, xs));
    }
  }

  lemma {:induction false} QuietWaits(s: Loop, quietSecs: nat, seconds: nat -> Second, k: nat)
    requires k <= quietSecs
    ensures Waited(s, Quiet(s, quietSecs, seconds, k).0)
    decreases quietSecs - k
  {
    if k == quietSecs {
      PassWaits(s, 0);
    } else {
      var s1 := Pass(s, SECOND + seconds(k).lag);
      var s2 := DrainRx(s1, seconds(k).suspects);
      PassWaits(s, SECOND + seconds(k).lag);
      DrainWaits(s1, seconds(k).suspects);
      hide Waited, DrainRx, Pass;
      WaitedTwice(s, s1, s2);
      if seconds(k).depth == 0 {
        QuietWaits(s2, quietSecs, seconds, k + 1);
        WaitedTwice(s, s2, Quiet(s, quietSecs, seconds, k).0);
      }
    }
  }

  // ---- The hourly budget ----

  /** Successes charged to one budget window. */
  function InWindow(log: seq<Success>, w: nat): nat {
    if log == [] then 0 else InWindow(log[..|log| - 1], w) + if log[|log| - 1].window == w then 1 else 0
  }

  /** Successes in the hour from x on, its end excluded. */
  function InHour(log: seq<Success>, x: nat): nat {
    if log == [] then 0
    else InHour(log[..|log| - 1], x) + if x <= log[|log| - 1].time < x + HOUR then 1 else 0
  }

  /** Budgets start at least an hour apart. */
  predicate Spaced(resets: seq<nat>) {
    forall k, m :: 0 <= k < m < |resets| ==> resets[m] >= resets[k] + HOUR
  }

  /** The success falls between the start of its window and the next start. */
  predicate Placed(resets: seq<nat>, x: Success) {
    && 1 <= x.window <= |resets|
    && resets[x.window - 1] <= x.time
    && (x.window < |resets| ==> x.time <= resets[x.window])
  }

  ghost predicate Budgeted(cfg: Config, s: Loop) {
    && s.resets != [] && s.resets[|s.resets| - 1] == s.hourStart <= s.now && Spaced(s.resets)
    && (forall i :: 0 <= i < |s.successes| ==> Placed(s.resets, s.successes[i]) && s.successes[i].time <= s.now)
    && InWindow(s.successes, |s.resets|) == s.shapesThisHour
    && (forall w :: InWindow(s.successes, w) <= cfg.maxShapesPerHour)
  }

  lemma WaitingKeepsBudget(cfg: Config, s: Loop, s': Loop)
    requires Budgeted(cfg, s) && Waited(s, s')
    ensures Budgeted(cfg, s')
  {
    hide Orderly;
  }

  lemma {:induction false} NothingLater(log: seq<Success>, resets: seq<nat>, w: nat)
    requires w > |resets| && forall i :: 0 <= i < |log| ==> Placed(resets, log[i])
    ensures InWindow(log, w) == 0
  {
    if log != [] {
      NothingLater(log[..|log| - 1], resets, w);
    }
  }

  lemma ResetKeepsBudget(cfg: Config, s: Loop, resetLag: nat)
    requires Budgeted(cfg, s)
    ensures Budgeted(cfg, ResetBudget(s, resetLag))
  {
    NothingLater(s.successes, s.resets, |s.resets| + 1);
    hide InWindow;
    var s' := ResetBudget(s, resetLag);
    if s' != s {
      forall k, m | 0 <= k < m < |s'.resets| ensures s'.resets[m] >= s'.resets[k] + HOUR {
        assert k < |s.resets| - 1 ==> s.resets[|s.resets| - 1] >= s.resets[k] + HOUR;
      }
    }
  }

  lemma ResetKeepsOrder(s: Loop, resetLag: nat)
    requires Orderly(s)
    ensures Orderly(ResetBudget(s, resetLag))
  {
    forall y ensures Succeeded(ResetBudget(s, resetLag), y) <==> Succeeded(s, y) {}
  }

  lemma FireKeepsBudget(cfg: Config, s: Loop, t: Turn)
    requires Budgeted(cfg, s) && s.pending != [] && s.shapesThisHour < cfg.maxShapesPerHour
    ensures Budgeted(cfg, Fire(s, t))
  {
    var s' := Fire(s, t);
    if t.sent && t.ack.Compiled? {
      var x := Success(s.pending[0], s.now + t.work, |s.resets|, t.ack.ms);
      assert s'.successes == s.successes + [x];
      assert s'.successes[..|s.successes|] == s.successes;
      forall w ensures InWindow(s'.successes, w) == InWindow(s.successes, w) + if w == |s.resets| then 1 else 0 {}
      hide InWindow;
    }
  }

  ghost predicate Sound(cfg: Config, s: Loop) { Orderly(s) && Budgeted(cfg, s) }

  lemma WakeKeeps(cfg: Config, s: Loop, w: Wakeup)
    requires Sound(cfg, s)
    ensures Sound(cfg, Wake(s, w))
  {
    match w
    case Suspect(x) =>
      AcceptWaits(s, x);
      WaitingKeepsBudget(cfg, s, Accept(s, x));
    case SendersGone =>
      forall y ensures Succeeded(Wake(s, w), y) <==> Succeeded(s, y) {}
    case Slept =>
      PassWaits(s, 5 * SECOND);
      WaitingKeepsBudget(cfg, s, Pass(s, 5 * SECOND));
  }

  lemma WaitingKeeps(cfg: Config, s: Loop, s': Loop)
    requires Sound(cfg, s) && Waited(s, s')
    ensures Sound(cfg, s')
  {
    WaitingKeepsBudget(cfg, s, s');
    hide Budgeted, Orderly;
  }

  lemma PrepareKeeps(cfg: Config, s: Loop, t: Turn)
    requires Sound(cfg, s)
    ensures Sound(cfg, Prepare(s, t))
  {
    var drained := DrainRx(s, t.suspects);
    DrainWaits(s, t.suspects);
    PassWaits(drained, t.lag);
    hide Sound, Waited, DrainRx, Pass, ResetBudget;
    WaitingKeeps(cfg, s, drained);
    WaitingKeeps(cfg, drained, Pass(drained, t.lag));
    ResetKeeps(cfg, Pass(drained, t.lag), t.resetLag);
  }

  lemma IterateKeeps(cfg: Config, s: Loop, t: Turn)
    requires Sound(cfg, s)
    ensures Sound(cfg, Iterate(cfg, s, t))
  {
    var s1 := Prepare(s, t);
    var s2 := Quiet(s1, cfg.quietSecs, t.seconds, 0).0;
    PrepareKeeps(cfg, s, t);
    PassWaits(s1, SECOND);
    QuietWaits(s1, cfg.quietSecs, t.seconds, 0);
    assert s2.shapesThisHour == s1.shapesThisHour;
    hide Sound, Waited, Pass, Quiet, Prepare, Fire, Wake;
    WaitingKeeps(cfg, s1, Pass(s1, SECOND));
    WaitingKeeps(cfg, s1, s2);
    WakeKeeps(cfg, s1, t.wakeup);
    if s1.shapesThisHour < cfg.maxShapesPerHour && s2.pending != [] {
      FireKeeps(cfg, s2, t);
    }
  }

  lemma ResetKeeps(cfg: Config, s: Loop, resetLag: nat)
    requires Sound(cfg, s)
    ensures Sound(cfg, ResetBudget(s, resetLag))
  {
    hide Orderly, Budgeted;
    ResetKeepsBudget(cfg, s, resetLag);
    ResetKeepsOrder(s, resetLag);
  }

  lemma FireKeeps(cfg: Config, s: Loop, t: Turn)
    requires Sound(cfg, s) && s.pending != [] && s.shapesThisHour < cfg.maxShapesPerHour
    ensures Sound(cfg, Fire(s, t))
  {
    hide Orderly, Budgeted;
    FireKeepsBudget(cfg, s, t);
    FireKeepsOrder(s, t);
  }

  lemma BeginsSound(cfg: Config, start: nat)
    ensures Sound(cfg, Begin(start))
  {
    forall y ensures !Succeeded(Begin(start), y) {}
  }

  /** Over every run: pending stays duplicate-free, first in first out and apart from the warmed
      shapes, no shape succeeds twice, and every budget window holds at most the configured
      number of successes. */
  lemma {:induction false} AlwaysSound(cfg: Config, start: nat, turns: seq<Turn>)
    ensures Sound(cfg, Turns(cfg, start, turns))
  {
    if turns == [] {
      BeginsSound(cfg, start);
    } else {
      var front := turns[..|turns| - 1];
      AlwaysSound(cfg, start, front);
      hide Sound, Iterate, Begin;
      IterateKeeps(cfg, Turns(cfg, start, front), turns[|turns| - 1]);
    }
  }

  /** What one turn may fire, given what has succeeded before it. */
  ghost predicate FiresOnlyNew(s: Loop, s': Loop) {
    s.warmed <= s'.warmed && (s'.fired == s.fired || exists y :: y !in s.warmed && s'.fired == s.fired + [y])
  }

  lemma FireIsNew(s: Loop, t: Turn)
    requires Orderly(s) && s.pending != []
    ensures FiresOnlyNew(s, Fire(s, t))
  {
    assert s.pending[0] !in s.warmed;
    hide Orderly;
  }

  lemma WakeFiresNothing(s: Loop, w: Wakeup)
    ensures FiresOnlyNew(s, Wake(s, w))
  {}

  lemma IterateFires(cfg: Config, s: Loop, t: Turn)
    requires Sound(cfg, s)
    ensures FiresOnlyNew(s, Iterate(cfg, s, t))
  {
    var s1 := Prepare(s, t);
    var s2 := Quiet(s1, cfg.quietSecs, t.seconds, 0).0;
    hide Prepare, Quiet, Sound, Orderly, Fire, Wake;
    PrepareFires(s, t);
    ReadyToFire(cfg, s, t);
    WakeFiresNothing(s1, t.wakeup);
    if s2.pending != [] {
      FireIsNew(s2, t);
    }
  }

  lemma ReadyToFire(cfg: Config, s: Loop, t: Turn)
    requires Sound(cfg, s)
    ensures var s2 := Quiet(Prepare(s, t), cfg.quietSecs, t.seconds, 0).0;
      Orderly(s2) && s2.fired == s.fired && s2.warmed == s.warmed
  {
    PrepareFires(s, t);
    PrepareKeeps(cfg, s, t);
    QuietWaits(Prepare(s, t), cfg.quietSecs, t.seconds, 0);
    hide Prepare, Quiet, Orderly, Budgeted;
  }

  lemma PrepareFires(s: Loop, t: Turn)
    ensures Prepare(s, t).fired == s.fired && Prepare(s, t).warmed == s.warmed
  {
    DrainAppends(s, t.suspects);
    hide DrainRx;
  }

  lemma TurnsGrow(cfg: Config, start: nat, turns: seq<Turn>, t: Turn)
    ensures var s := Turns(cfg, start, turns);
      Turns(cfg, start, turns + [t]) == if s.exited then s else Iterate(cfg, s, t)
  {
    assert (turns + [t])[..|turns|] == turns;
  }

  /** Since the history `fired`, the warmed shape x has not been fired. */
  ghost predicate NotFiredSince(fired: seq<Shape>, s: Loop, x: Shape) {
    x in s.warmed && fired <= s.fired && x !in s.fired[|fired|..]
  }

  /** A shape that has succeeded is never submitted again: whatever is fired later is another. */
  lemma {:induction false} NeverResubmitted(cfg: Config, start: nat, turns: seq<Turn>, more: seq<Turn>, x: Shape)
    requires Succeeded(Turns(cfg, start, turns), x)
    ensures var s, s' := Turns(cfg, start, turns), Turns(cfg, start, turns + more);
      && x in s'.warmed && x !in s'.pending
      && s.fired <= s'.fired && x !in s'.fired[|s.fired|..]
  {
    NotFiredLater(cfg, start, turns, more, x);
    AlwaysSound(cfg, start, turns + more);
    hide Turns, Sound;
    WarmedIsNotPending(cfg, Turns(cfg, start, turns + more), x);
  }

  lemma {:induction false} NotFiredLater(cfg: Config, start: nat, turns: seq<Turn>, more: seq<Turn>, x: Shape)
    requires Succeeded(Turns(cfg, start, turns), x)
    ensures NotFiredSince(Turns(cfg, start, turns).fired, Turns(cfg, start, turns + more), x)
  {
    hide Turns, Iterate, Sound;
    if more == [] {
      assert turns + more == turns;
      AlwaysSound(cfg, start, turns);
      SucceededIsWarmed(cfg, Turns(cfg, start, turns), x);
    } else {
      var front, t := more[..|more| - 1], more[|more| - 1];
      NotFiredLater(cfg, start, turns, front, x);
      AlwaysSound(cfg, start, turns + front);
      assert turns + more == turns + front + [t];
      TurnsGrow(cfg, start, turns + front, t);
      var s := Turns(cfg, start, turns + front);
      IterateFires(cfg, s, t);
      StillNotFired(Turns(cfg, start, turns).fired, s, Iterate(cfg, s, t), x);
    }
  }

  lemma SucceededIsWarmed(cfg: Config, s: Loop, x: Shape)
    requires Sound(cfg, s) && Succeeded(s, x)
    ensures x in s.warmed
  {
    hide Budgeted;
  }

  lemma StillNotFired(fired: seq<Shape>, s: Loop, s': Loop, x: Shape)
    requires NotFiredSince(fired, s, x) && FiresOnlyNew(s, s')
    ensures NotFiredSince(fired, s', x)
  {
    if s'.fired != s.fired {
      var y :| y !in s.warmed && s'.fired == s.fired + [y];
      assert s'.fired[|fired|..] == s.fired[|fired|..] + [y];
    }
  }

  lemma WarmedIsNotPending(cfg: Config, s: Loop, x: Shape)
    requires Sound(cfg, s) && x in s.warmed
    ensures x !in s.pending
  {
    hide Budgeted;
  }

  // ---- When a turn fires, ends the task, or waits ----

  /** With the channel drained and the budget renewed: something is pending and may be compiled. */
  predicate MayFire(cfg: Config, s: Loop) { s.pending != [] && s.shapesThisHour < cfg.maxShapesPerHour }

  /** The request queue is empty now and at every second of the quiet window. */
  ghost predicate AllQuiet(cfg: Config, t: Turn) {
    t.depth == 0 && forall j :: 0 <= j < cfg.quietSecs ==> t.seconds(j).depth == 0
  }

  /** What a turn from the drained state s1 leads to: the oldest pending shape is submitted exactly when
      it may be, the queue stays empty throughout, and the worker pool takes it; the task ends exactly
      when the senders are gone while it has nothing to do, or when the pool does not take it. A turn
      that does neither and was not woken by a suspect takes a second or more, five when it slept. */
  ghost predicate TurnMeans(cfg: Config, s1: Loop, t: Turn, s': Loop) {
    && s'.fired == (if MayFire(cfg, s1) && AllQuiet(cfg, t) && t.sent then s1.fired + [s1.pending[0]] else s1.fired)
    && (s'.exited <==> s1.exited || (if MayFire(cfg, s1) then AllQuiet(cfg, t) && !t.sent else t.wakeup.SendersGone?))
    && (s'.fired != s1.fired || s'.exited || (!MayFire(cfg, s1) && t.wakeup.Suspect?) || s'.now >= s1.now + 1_000_000_000)
    && (!MayFire(cfg, s1) && t.wakeup.Slept? ==> s'.now == s1.now + 5_000_000_000)
  }

  lemma TurnExplained(cfg: Config, s: Loop, t: Turn)
    ensures var s1 := Prepare(s, t);
      s1.now < s1.hourStart + HOUR && TurnMeans(cfg, s1, t, Iterate(cfg, s, t))
  {
    var s1 := Prepare(s, t);
    QuietReached(s1, cfg.quietSecs, t.seconds, 0);
    QuietWaits(s1, cfg.quietSecs, t.seconds, 0);
    hide Prepare, Quiet, Orderly;
    if MayFire(cfg, s1) && t.depth == 0 && !AllQuiet(cfg, t) {
      BusySecondPasses(s1, cfg.quietSecs, t.seconds, 0);
    }
  }

  /** A quiet window that is not reached has lasted a second at least. */
  lemma BusySecondPasses(s: Loop, quietSecs: nat, seconds: nat -> Second, k: nat)
    requires k < quietSecs
    ensures Quiet(s, quietSecs, seconds, k).0.now >= s.now + SECOND
  {
    var s1 := Pass(s, SECOND + seconds(k).lag);
    DrainWaits(s1, seconds(k).suspects);
    QuietWaits(DrainRx(s1, seconds(k).suspects), quietSecs, seconds, k + 1);
    hide DrainRx, Orderly;
  }

  // ---- No suspect is overlooked ----

  /** Has been queued at some time, or is warmed. */
  predicate Known(s: Loop, x: Shape) { x in s.accepted || x in s.warmed }

  /** Whatever reaches the loop during a turn is known afterwards: the suspects waiting in the channel,
      those arriving in the seconds of the quiet window that are sat through, and the one it wakes
      for. */
  ghost predicate Hears(cfg: Config, s1: Loop, t: Turn, s': Loop) {
    && (forall x :: x in t.suspects ==> Known(s', x))
    && (!MayFire(cfg, s1) && t.wakeup.Suspect? ==> Known(s', t.wakeup.shape))
    && (MayFire(cfg, s1) && t.depth == 0 ==> forall j, x ::
          0 <= j < cfg.quietSecs && (forall i :: 0 <= i < j ==> t.seconds(i).depth == 0) && x in t.seconds(j).suspects ==>
            Known(s', x))
  }

  /** Nothing known is forgotten. */
  ghost predicate Keeps(s: Loop, s': Loop) {
    s.accepted <= s'.accepted && s.warmed <= s'.warmed
  }

  lemma KeepsKnown(s: Loop, s': Loop, x: Shape)
    requires Keeps(s, s') && Known(s, x)
    ensures Known(s', x)
  {
    if x in s.accepted {
      var i :| 0 <= i < |s.accepted| && s.accepted[i] == x;
      assert s'.accepted[i] == x;
    }
  }

  lemma DrainHears(s: Loop, xs: seq<Shape>)
    requires Orderly(s)
    ensures Keeps(s, DrainRx(s, xs)) && forall x :: x in xs ==> Known(DrainRx(s, xs), x)
  {
    DrainAppends(s, xs);
    var added := NewOnes(xs, s.warmed + ToSet(s.pending));
    forall x | x in xs ensures Known(DrainRx(s, xs), x) {
      NewOnesAreNew(xs, s.warmed + ToSet(s.pending), x);
      assert x in s.pending ==> x in s.fired + s.pending;
    }
  }

  lemma {:induction false} QuietHears(s: Loop, quietSecs: nat, seconds: nat -> Second, k: nat)
    requires k <= quietSecs && Orderly(s)
    ensures Keeps(s, Quiet(s, quietSecs, seconds, k).0)
    ensures forall j, x ::
      k <= j < quietSecs && (forall i :: k <= i < j ==> seconds(i).depth == 0) && x in seconds(j).suspects ==>
        Known(Quiet(s, quietSecs, seconds, k).0, x)
    decreases quietSecs - k
  {
    if k < quietSecs {
      var s1 := Pass(s, SECOND + seconds(k).lag);
      var s2 := DrainRx(s1, seconds(k).suspects);
      PassWaits(s, SECOND + seconds(k).lag);
      DrainHears(s1, seconds(k).suspects);
      DrainWaits(s1, seconds(k).suspects);
      hide DrainRx, Orderly;
      if seconds(k).depth == 0 {
        QuietHears(s2, quietSecs, seconds, k + 1);
      }
      var s' := Quiet(s, quietSecs, seconds, k).0;
      forall j, x | k <= j < quietSecs && (forall i :: k <= i < j ==> seconds(i).depth == 0) && x in seconds(j).suspects
        ensures Known(s', x)
      {
        if j == k {
          if seconds(k).depth == 0 {
            KeepsKnown(s2, s', x);
          }
        }
      }
    }
  }

  lemma PrepareHears(s: Loop, t: Turn)
    requires Orderly(s)
    ensures Keeps(s, Prepare(s, t)) && forall x :: x in t.suspects ==> Known(Prepare(s, t), x)
  {
    DrainHears(s, t.suspects);
    hide DrainRx, Orderly;
  }

  lemma FireKnows(s: Loop, t: Turn)
    requires s.pending != []
    ensures Keeps(s, Fire(s, t))
  {}

  lemma TurnHears(cfg: Config, s: Loop, t: Turn)
    requires Sound(cfg, s)
    ensures Keeps(s, Iterate(cfg, s, t)) && Hears(cfg, Prepare(s, t), t, Iterate(cfg, s, t))
  {
    var s1, s' := Prepare(s, t), Iterate(cfg, s, t);
    var s2 := Quiet(s1, cfg.quietSecs, t.seconds, 0).0;
    PrepareHears(s, t);
    PrepareKeeps(cfg, s, t);
    QuietHears(s1, cfg.quietSecs, t.seconds, 0);
    QuietWaits(s1, cfg.quietSecs, t.seconds, 0);
    WakeHears(s1, t.wakeup);
    hide Prepare, Quiet, Orderly, Budgeted, Fire, Wake, Known;
    if s2.pending != [] {
      FireKnows(s2, t);
    }
    assert Keeps(s1, s');
    forall x | x in t.suspects ensures Known(s', x) {
      KeepsKnown(s1, s', x);
    }
    if MayFire(cfg, s1) && t.depth == 0 {
      assert Keeps(s2, s');
      forall x | Known(s2, x) ensures Known(s', x) {
        KeepsKnown(s2, s', x);
      }
    }
  }

  lemma WakeHears(s: Loop, w: Wakeup)
    requires Orderly(s)
    ensures Keeps(s, Wake(s, w)) && (w.Suspect? ==> Known(Wake(s, w), w.shape))
  {
    assert forall x :: x in s.pending ==> x in s.fired + s.pending;
  }

  /** Over every run: whatever was waiting in the channel at the start of a turn the task still made is
      known from then on. */
  lemma {:induction false} SuspectsStayKnown(cfg: Config, start: nat, turns: seq<Turn>, i: nat, x: Shape)
    requires i < |turns| && x in turns[i].suspects && !Turns(cfg, start, turns[..i]).exited
    ensures Known(Turns(cfg, start, turns), x)
  {
    var front, t := turns[..|turns| - 1], turns[|turns| - 1];
    var s := Turns(cfg, start, front);
    AlwaysSound(cfg, start, front);
    TurnHears(cfg, s, t);
    hide Iterate, Sound, Known, Prepare;
    if i < |front| {
      assert front[..i] == turns[..i];
      SuspectsStayKnown(cfg, start, front, i, x);
      if !s.exited {
        KeepsKnown(s, Iterate(cfg, s, t), x);
      }
    }
  }

  // ---- What is announced to the workers ----

  /** The successes that took measurable time, in order. */
  function Built(log: seq<Success>): seq<Shape> {
    if log == [] then []
    else
      var last, front := log[|log| - 1], Built(log[..|log| - 1]);
      if last.ms > 0 then front + [last.shape] else front
  }

  lemma TurnAnnounces(cfg: Config, s: Loop, t: Turn)
    requires s.broadcasts == Built(s.successes)
    ensures Iterate(cfg, s, t).broadcasts == Built(Iterate(cfg, s, t).successes)
  {
    var s1 := Prepare(s, t);
    var s2 := Quiet(s1, cfg.quietSecs, t.seconds, 0).0;
    DrainAppends(s, t.suspects);
    assert s1.broadcasts == s.broadcasts && s1.successes == s.successes;
    QuietWaits(s1, cfg.quietSecs, t.seconds, 0);
    hide Prepare, Quiet, Orderly, DrainRx, Built, Fire;
    if s2.pending != [] {
      FireAnnounces(s2, t);
    }
  }

  lemma FireAnnounces(s: Loop, t: Turn)
    requires s.pending != [] && s.broadcasts == Built(s.successes)
    ensures Fire(s, t).broadcasts == Built(Fire(s, t).successes)
  {
    if t.sent && t.ack.Compiled? {
      assert Fire(s, t).successes[..|s.successes|] == s.successes;
    }
  }

  /** Over every run the other workers are told of exactly the compiles that took measurable time, in
      order; a shape that came from the cache is not announced. */
  lemma {:induction false} AnnouncesBuilt(cfg: Config, start: nat, turns: seq<Turn>)
    ensures Turns(cfg, start, turns).broadcasts == Built(Turns(cfg, start, turns).successes)
  {
    if turns != [] {
      AnnouncesBuilt(cfg, start, turns[..|turns| - 1]);
      hide Iterate;
      TurnAnnounces(cfg, Turns(cfg, start, turns[..|turns| - 1]), turns[|turns| - 1]);
    }
  }

  // ---- Any hour, not only the budget's own ----

  /** Two successes within one hour lie in the same or adjacent windows. */
  lemma AtMostOneResetBetween(resets: seq<nat>, p: Success, q: Success, x: nat)
    requires Spaced(resets) && Placed(resets, p) && Placed(resets, q)
    requires x <= p.time < x + HOUR && x <= q.time < x + HOUR
    ensures q.window <= p.window + 1
  {}

  /** The earliest window with a success in the hour. */
  lemma {:induction false} EarliestWindow(log: seq<Success>, x: nat) returns (i: nat)
    requires InHour(log, x) > 0
    ensures i < |log| && x <= log[i].time < x + HOUR
    ensures forall j :: 0 <= j < |log| && x <= log[j].time < x + HOUR ==> log[i].window <= log[j].window
  {
    var last := |log| - 1;
    if InHour(log[..last], x) == 0 {
      NoneInHour(log[..last], x);
      i := last;
      assert forall j :: 0 <= j < last ==> log[j] == log[..last][j];
    } else {
      i := EarliestWindow(log[..last], x);
      assert forall j :: 0 <= j < last ==> log[j] == log[..last][j];
      if x <= log[last].time < x + HOUR && log[last].window < log[i].window {
        i := last;
      }
    }
  }

  lemma {:induction false} NoneInHour(log: seq<Success>, x: nat)
    requires InHour(log, x) == 0
    ensures forall i :: 0 <= i < |log| ==> !(x <= log[i].time < x + HOUR)
  {
    if log != [] {
      NoneInHour(log[..|log| - 1], x);
      assert forall j :: 0 <= j < |log| - 1 ==> log[j] == log[..|log| - 1][j];
    }
  }

  lemma {:induction false} HourInTwoWindows(log: seq<Success>, x: nat, w: nat)
    requires forall i :: 0 <= i < |log| && x <= log[i].time < x + HOUR ==> w <= log[i].window <= w + 1
    ensures InHour(log, x) <= InWindow(log, w) + InWindow(log, w + 1)
  {
    if log != [] {
      HourInTwoWindows(log[..|log| - 1], x, w);
    }
  }

  /** Any span of one hour contains at most twice the configured number of successes. */
  lemma AnyHourAtMostTwiceBudget(cfg: Config, start: nat, turns: seq<Turn>, x: nat)
    ensures InHour(Turns(cfg, start, turns).successes, x) <= 2 * cfg.maxShapesPerHour
  {
    AlwaysSound(cfg, start, turns);
    var s := Turns(cfg, start, turns);
    hide Turns;
    if InHour(s.successes, x) > 0 {
      var i := EarliestWindow(s.successes, x);
      var w := s.successes[i].window;
      forall j | 0 <= j < |s.successes| && x <= s.successes[j].time < x + HOUR
        ensures w <= s.successes[j].window <= w + 1
      {
        AtMostOneResetBetween(s.resets, s.successes[i], s.successes[j], x);
      }
      HourInTwoWindows(s.successes, x, w);
    }
  }

  // ---- When the fixed window is as good as a rolling hour ----

  /** Every fire follows a whole quiet window. */
  function Gap(cfg: Config): nat { cfg.quietSecs * SECOND }

  ghost predicate SpacedOut(cfg: Config, s: Loop) {
    && (forall i, j :: 0 <= i < j < |s.successes| ==> s.successes[j].time >= s.successes[i].time + Gap(cfg))
    && (forall i :: 0 <= i < |s.successes| ==> s.successes[i].time <= s.now)
  }

  lemma IterateKeepsSpacing(cfg: Config, s: Loop, t: Turn)
    requires SpacedOut(cfg, s)
    ensures SpacedOut(cfg, Iterate(cfg, s, t))
  {
    var s1 := Prepare(s, t);
    var (s2, idle) := Quiet(s1, cfg.quietSecs, t.seconds, 0);
    PrepareMoves(s, t);
    QuietReached(s1, cfg.quietSecs, t.seconds, 0);
    QuietWaits(s1, cfg.quietSecs, t.seconds, 0);
    assert s2.successes == s.successes && s2.now >= s1.now && (idle ==> s2.now >= s1.now + Gap(cfg));
    hide Prepare, Quiet, Waited, Gap;
    WaitingIsSpaced(cfg, s, s1);
    WaitingIsSpaced(cfg, s, s2);
    WakingIsSpaced(cfg, s1, t.wakeup);
    if idle && s2.pending != [] {
      FiringIsSpaced(cfg, s, s2, t);
    }
    hide SpacedOut, Fire, Wake;
    WaitingIsSpaced(cfg, s, Pass(s1, SECOND));
  }

  lemma WaitingIsSpaced(cfg: Config, s: Loop, s': Loop)
    requires SpacedOut(cfg, s) && s'.successes == s.successes && s'.now >= s.now
    ensures SpacedOut(cfg, s')
  {}

  lemma WakingIsSpaced(cfg: Config, s: Loop, w: Wakeup)
    requires SpacedOut(cfg, s)
    ensures SpacedOut(cfg, Wake(s, w))
  {}

  lemma FiringIsSpaced(cfg: Config, s: Loop, s': Loop, t: Turn)
    requires SpacedOut(cfg, s) && s'.successes == s.successes && s'.now >= s.now + Gap(cfg) && s'.pending != []
    ensures SpacedOut(cfg, Fire(s', t))
  {
    hide Gap;
  }

  lemma PrepareMoves(s: Loop, t: Turn)
    ensures Prepare(s, t).successes == s.successes && Prepare(s, t).now >= s.now
  {
    DrainAppends(s, t.suspects);
    hide DrainRx;
  }

  lemma {:induction false} AlwaysSpacedOut(cfg: Config, start: nat, turns: seq<Turn>)
    ensures SpacedOut(cfg, Turns(cfg, start, turns))
  {
    if turns != [] {
      AlwaysSpacedOut(cfg, start, turns[..|turns| - 1]);
      hide SpacedOut, Iterate;
      IterateKeepsSpacing(cfg, Turns(cfg, start, turns[..|turns| - 1]), turns[|turns| - 1]);
    }
  }

  /** Of c successes in one hour, the last comes c - 1 gaps into it. */
  lemma {:induction false} LastInHour(log: seq<Success>, x: nat, gap: nat) returns (i: nat)
    requires InHour(log, x) > 0
    requires forall i, j :: 0 <= i < j < |log| ==> log[j].time >= log[i].time + gap
    ensures i < |log| && x + (InHour(log, x) - 1) * gap <= log[i].time < x + HOUR
  {
    var last := |log| - 1;
    var front := log[..last];
    if InHour(front, x) == 0 {
      i := last;
      assert InHour(log, x) == 1;
    } else {
      i := LastInHour(front, x, gap);
      if x <= log[last].time < x + HOUR {
        OneMoreGap(InHour(front, x) - 1, gap);
        i := last;
      }
    }
  }

  lemma OneMoreGap(n: nat, gap: nat)
    ensures (n + 1) * gap == n * gap + gap
  {}

  /** With wide enough quiet windows no hour exceeds the budget. */
  lemma CapHolds(cfg: Config, start: nat, turns: seq<Turn>, x: nat)
    requires cfg.maxShapesPerHour == 0 || cfg.maxShapesPerHour * Gap(cfg) >= HOUR
    ensures InHour(Turns(cfg, start, turns).successes, x) <= cfg.maxShapesPerHour
  {
    AlwaysSpacedOut(cfg, start, turns);
    AnyHourAtMostTwiceBudget(cfg, start, turns, x);
    var log := Turns(cfg, start, turns).successes;
    hide Turns, InHour;
    if InHour(log, x) > cfg.maxShapesPerHour {
      var i := LastInHour(log, x, Gap(cfg));
      MoreGaps(cfg.maxShapesPerHour, InHour(log, x) - 1, Gap(cfg));
    }
  }

  lemma MoreGaps(m: nat, n: nat, gap: nat)
    requires m <= n
    ensures m * gap <= n * gap
  {}

  // ---- A burst around the reset, whenever the quiet windows are narrower ----

  /** One new shape arrives, and compiles at once when the quiet window is over. */
  function BurstTurn(k: nat, lag: nat): Turn {
    Turn([Shape(1, k + 1)], lag, 0, Slept, 0, j => Second([], 0, 0), true, Compiled(0), 0)
  }

  /** The wait that lets the budget's last compile end just before the hour. */
  function Lead(cfg: Config): int { HOUR - 1 - cfg.maxShapesPerHour * Gap(cfg) }

  function Burst(cfg: Config, k: nat): seq<Turn>
    requires Lead(cfg) >= 0
  {
    if k == 0 then [] else Burst(cfg, k - 1) + [BurstTurn(k - 1, BurstLag(cfg, k))]
  }

  lemma {:induction false} QuietIdle(s: Loop, quietSecs: nat, k: nat)
    requires k <= quietSecs
    ensures Quiet(s, quietSecs, BurstTurn(0, 0).seconds, k) == (Pass(s, (quietSecs - k) * SECOND), true)
    decreases quietSecs - k
  {
    if k < quietSecs {
      QuietIdle(Pass(s, SECOND), quietSecs, k + 1);
      assert DrainRx(Pass(s, SECOND), []) == Pass(s, SECOND);
    }
  }

  /** What a burst turn does to an idle loop. */
  lemma BurstStep(cfg: Config, s: Loop, k: nat, lag: nat)
    requires s.pending == [] && Shape(1, k + 1) !in s.warmed && cfg.maxShapesPerHour > 0
    requires s.now + lag - s.hourStart < HOUR ==> s.shapesThisHour < cfg.maxShapesPerHour
    ensures var s', reset := Iterate(cfg, s, BurstTurn(k, lag)), s.now + lag - s.hourStart >= HOUR;
      && s'.pending == [] && s'.warmed == s.warmed + {Shape(1, k + 1)} && s'.exited == s.exited
      && s'.now == s.now + lag + Gap(cfg)
      && s'.shapesThisHour == (if reset then 0 else s.shapesThisHour) + 1
      && s'.hourStart == (if reset then s.now + lag else s.hourStart)
      && |s'.successes| == |s.successes| + 1 && s.successes <= s'.successes
      && s'.successes[|s.successes|].time == s'.now
  {
    var x := Shape(1, k + 1);
    var s1 := Prepare(s, BurstTurn(k, lag));
    DrainOneSuspect(s, x);
    assert s1.pending == [x];
    QuietIdle(s1, cfg.quietSecs, 0);
    assert BurstTurn(k, lag).seconds == BurstTurn(0, 0).seconds;
    hide DrainRx, Quiet;
  }

  lemma DrainOneSuspect(s: Loop, x: Shape)
    requires x !in s.warmed && x !in s.pending
    ensures DrainRx(s, [x]) == Queued(s, [x])
  {
    assert [x][..0] == [];
    assert DrainRx(s, []) == s;
  }

  /** The loop after the first k compiles of the burst, all before the reset. */
  ghost predicate Bursting(cfg: Config, s: Loop, k: nat) {
    && s.pending == [] && !s.exited && s.shapesThisHour == k && s.hourStart == 0
    && (forall x :: x in s.warmed ==> x.seqLen <= k)
    && s.now == (if k == 0 then 0 else Lead(cfg) + k * Gap(cfg))
    && |s.successes| == k
    && (forall i :: 0 <= i < k ==> Lead(cfg) + Gap(cfg) <= s.successes[i].time <= s.now)
  }

  function BurstLag(cfg: Config, k: nat): int { if k == 1 then Lead(cfg) else 0 }

  lemma BurstOne(cfg: Config, s: Loop, k: nat)
    requires 0 < k <= cfg.maxShapesPerHour && Lead(cfg) >= 0 && Bursting(cfg, s, k - 1)
    ensures Bursting(cfg, Iterate(cfg, s, BurstTurn(k - 1, BurstLag(cfg, k))), k)
  {
    OneMoreGap(k - 1, Gap(cfg));
    MoreGaps(k, cfg.maxShapesPerHour, Gap(cfg));
    MoreGaps(1, k, Gap(cfg));
    hide Iterate, Gap, BurstTurn;
    BurstStep(cfg, s, k - 1, BurstLag(cfg, k));
    NextBursting(cfg, s, Iterate(cfg, s, BurstTurn(k - 1, BurstLag(cfg, k))), k);
  }

  lemma {:induction false} BurstRuns(cfg: Config, k: nat)
    requires Lead(cfg) >= 0 && k <= cfg.maxShapesPerHour
    ensures Bursting(cfg, Turns(cfg, 0, Burst(cfg, k)), k)
  {
    if k > 0 {
      BurstRuns(cfg, k - 1);
      TurnsGrow(cfg, 0, Burst(cfg, k - 1), BurstTurn(k - 1, BurstLag(cfg, k)));
      assert !Turns(cfg, 0, Burst(cfg, k - 1)).exited;
      hide Iterate, Bursting, Turns, BurstTurn, BurstLag;
      BurstOne(cfg, Turns(cfg, 0, Burst(cfg, k - 1)), k);
    }
  }

  lemma NextBursting(cfg: Config, s: Loop, s': Loop, k: nat)
    requires 0 < k <= cfg.maxShapesPerHour && Bursting(cfg, s, k - 1)
    requires s'.pending == [] && s'.warmed == s.warmed + {Shape(1, k)} && !s'.exited
    requires s'.now == Lead(cfg) + k * Gap(cfg) && k * Gap(cfg) >= Gap(cfg) && s.now <= s'.now
    requires s'.shapesThisHour == k && s'.hourStart == 0
    requires |s'.successes| == k && s.successes <= s'.successes && s'.successes[k - 1].time == s'.now
    ensures Bursting(cfg, s', k)
  {
    hide Gap, Lead;
  }

  lemma {:induction false} AllInHour(log: seq<Success>, x: nat)
    requires forall i :: 0 <= i < |log| ==> x <= log[i].time < x + HOUR
    ensures InHour(log, x) == |log|
  {
    if log != [] {
      AllInHour(log[..|log| - 1], x);
    }
  }

  /** With narrower quiet windows one hour sees a compile more than the budget: the whole budget
      just before the reset and one more right after it. */
  lemma BurstExceedsBudget(cfg: Config)
    requires cfg.maxShapesPerHour > 0 && Lead(cfg) > 0
    ensures var turns := Burst(cfg, cfg.maxShapesPerHour) + [BurstTurn(cfg.maxShapesPerHour, 1)];
      InHour(Turns(cfg, 0, turns).successes, Lead(cfg) + Gap(cfg)) == cfg.maxShapesPerHour + 1
  {
    var n := cfg.maxShapesPerHour;
    var turns := Burst(cfg, n) + [BurstTurn(n, 1)];
    var s := Turns(cfg, 0, Burst(cfg, n));
    BurstRuns(cfg, n);
    TurnsGrow(cfg, 0, Burst(cfg, n), BurstTurn(n, 1));
    var s' := Iterate(cfg, s, BurstTurn(n, 1));
    MoreGaps(1, n, Gap(cfg));
    hide Iterate, Gap, InHour, Turns, Burst, BurstTurn;
    BurstStep(cfg, s, n, 1);
    LastCompile(cfg, s, s');
  }

  lemma LastCompile(cfg: Config, s: Loop, s': Loop)
    requires var n := cfg.maxShapesPerHour; n > 0 && Lead(cfg) > 0 && n * Gap(cfg) >= Gap(cfg) && Bursting(cfg, s, n)
    requires s'.now == s.now + 1 + Gap(cfg) && |s'.successes| == |s.successes| + 1 && s.successes <= s'.successes
    requires s'.successes[|s.successes|].time == s'.now
    ensures InHour(s'.successes, Lead(cfg) + Gap(cfg)) == cfg.maxShapesPerHour + 1
  {
    hide Gap, InHour;
    assert s.now == HOUR - 1;
    AllInHour(s'.successes, Lead(cfg) + Gap(cfg));
  }

  /** The budget caps every hour, as documented. */
  ghost predicate CapsEveryHour(cfg: Config) {
    forall start: nat, turns: seq<Turn>, x: nat :: InHour(Turns(cfg, start, turns).successes, x) <= cfg.maxShapesPerHour
  }

  /** The hourly budget is a fixed window, yet it caps every hour of every run exactly when the
      budget is zero or its quiet windows alone fill an hour. */
  lemma CapsEveryHourIff(cfg: Config)
    ensures CapsEveryHour(cfg) <==> cfg.maxShapesPerHour == 0 || cfg.maxShapesPerHour * cfg.quietSecs >= 3600
  {
    GapsInSeconds(cfg);
    hide Gap;
    if cfg.maxShapesPerHour == 0 || cfg.maxShapesPerHour * cfg.quietSecs >= 3600 {
      forall start: nat, turns: seq<Turn>, x: nat
        ensures InHour(Turns(cfg, start, turns).successes, x) <= cfg.maxShapesPerHour
      {
        CapHolds(cfg, start, turns, x);
      }
    } else {
      BurstExceedsBudget(cfg);
    }
  }

  lemma GapsInSeconds(cfg: Config)
    ensures cfg.maxShapesPerHour * Gap(cfg) == cfg.maxShapesPerHour * cfg.quietSecs * SECOND
  {}

  /** The default configuration, three quiet seconds and twelve shapes, does not cap every hour. */
  lemma DefaultsExceedBudget()
    ensures !CapsEveryHour(Config(3, 12))
  {
    CapsEveryHourIff(Config(3, 12));
  }
}
