/** The bootstrap protocol: readiness flag, cost-model swap, probe status and request permits
    (src/bootstrap/readiness.rs, src/bootstrap/probe_task.rs, the embedding handlers). */
module Startup {
  import opened Numbers
  import opened Outcomes
  import opened CostModels

  const F64_EPSILON: real := 0.0000000000000002220446049250313

  datatype Status = Running | Disabled | CacheHit | Complete | Failed

  /** How the cost model is resolved. */
  datatype Route = Override | Cached | Probed

  /** The bootstrap task's next store, between any two of which handlers may run. */
  datatype Task =
    | AwaitingPool
    | StoringModel(route: Route)
    | StoringStatus(route: Route)
    | Draining                     // status is Running, about to acquire the permits
    | Forgetting                   // permits held, about to be forgotten
    | Sweeping                     // the probe runs
    | CheckingDense(route: Route)
    | CheckingSparse(route: Route)
    | Opening(route: Route)        // both checks passed, about to set ready
    | Releasing                    // probe path: about to add permits
    | Finished(route: Route)
    | Aborted                      // the process exits

  /** Handlers are interchangeable, so their stages are counted: past the ready check and waiting
      for a permit, holding one, and inside the pool with one. `orphaned` counts requests still in
      the pool whose client has left and whose handler has therefore given its permit back. */
  datatype State = State(
    task: Task,
    ready: bool,
    flips: nat,
    status: Status,
    model: Option<(real, real)>,
    available: nat,
    drained: nat,
    waiting: nat,
    holding: nat,
    inPool: nat,
    orphaned: nat)

  datatype Step =
    | PoolReady(route: Route)
    | PoolFailed
    | StoreModel(a: real, b: real)
    | StoreStatus
    | Acquire
    | Forget
    | Sweep(a: real, b: real)
    | Check(passes: bool)
    | Open
    | AddPermits
    | Arrive(live: bool)
    | TakePermit
    | Dispatch
    | Reply
    | StopWaiting
    | DropPermit
    | Disconnect
    | OrphanDone

  function InitialPermits(workers: nat): nat { if workers <= 2 then 1 else workers - 1 }

  /** Permits the probe drains: all but the reserved one, as a u32. */
  function DrainCount(workers: nat): nat {
    var wanted := if workers == 0 then 0 else workers - 1;
    if wanted <= U32_MAX then wanted else U32_MAX
  }

  function Boot(workers: nat): State {
    State(AwaitingPool, false, 0, Running, None, InitialPermits(workers), 0, 0, 0, 0, 0)
  }

  predicate LooksConservative(a: real, b: real) {
    AbsReal(a - CONSERVATIVE_A) < F64_EPSILON && AbsReal(b - CONSERVATIVE_B) < F64_EPSILON
  }

  predicate Checking(t: Task) { t.CheckingDense? || t.CheckingSparse? }

  function AfterCheck(t: Task, passes: bool): Task
    requires Checking(t)
  {
    if passes then if t.CheckingDense? then CheckingSparse(t.route) else Opening(t.route)
    else if t.route.Probed? then Releasing
    else Aborted
  }

  /** The bootstrap task's steps. */
  function TaskStep(workers: nat, s: State, step: Step): Option<State> {
    match step
    case PoolReady(route) =>
      if !s.task.AwaitingPool? then None
      else Some(s.(task := if route.Probed? then Draining else StoringModel(route)))
    case PoolFailed => if s.task.AwaitingPool? then Some(s.(task := Aborted)) else None
    case StoreModel(a, b) =>
      if s.task.StoringModel? then Some(s.(model := Some((a, b)), task := StoringStatus(s.task.route))) else None
    case StoreStatus =>
      if !s.task.StoringStatus? then None
      else
        var status := match s.task.route
          case Override => Disabled
          case Cached => CacheHit
          case Probed =>
            if s.model.Some? && LooksConservative(s.model.value.0, s.model.value.1) then Failed else Complete;
        Some(s.(status := status, task := CheckingDense(s.task.route)))
    case Acquire =>
      if s.task.Draining? && s.available >= DrainCount(workers)
      then Some(s.(available := s.available - DrainCount(workers), drained := DrainCount(workers), task := Forgetting))
      else None
    case Forget => if s.task.Forgetting? then Some(s.(drained := 0, task := Sweeping)) else None
    case Sweep(a, b) =>
      if s.task.Sweeping? then Some(s.(model := Some((a, b)), task := StoringStatus(Probed))) else None
    case Check(passes) => if Checking(s.task) then Some(s.(task := AfterCheck(s.task, passes))) else None
    case Open =>
      if s.task.Opening?
      then Some(s.(ready := true, flips := s.flips + 1,
                   task := if s.task.route.Probed? then Releasing else Finished(s.task.route)))
      else None
    case AddPermits =>
      if s.task.Releasing? then Some(s.(available := s.available + workers, task := Finished(Probed))) else None
    case _ => None
  }

  /** A handler's steps; a client may leave at any stage. */
  function HandlerStep(s: State, step: Step): Option<State> {
    match step
    case Arrive(live) => if s.ready && live then Some(s.(waiting := s.waiting + 1)) else None
    case TakePermit =>
      if s.waiting > 0 && s.available > 0
      then Some(s.(waiting := s.waiting - 1, available := s.available - 1, holding := s.holding + 1))
      else None
    case Dispatch =>
      if s.holding > 0 then Some(s.(holding := s.holding - 1, inPool := s.inPool + 1)) else None
    case Reply =>
      if s.inPool > 0 then Some(s.(inPool := s.inPool - 1, available := s.available + 1)) else None
    case StopWaiting =>
      if s.waiting > 0 then Some(s.(waiting := s.waiting - 1)) else None
    case DropPermit =>
      if s.holding > 0 then Some(s.(holding := s.holding - 1, available := s.available + 1)) else None
    case Disconnect =>
      if s.inPool > 0
      then Some(s.(inPool := s.inPool - 1, available := s.available + 1, orphaned := s.orphaned + 1))
      else None
    case OrphanDone =>
      if s.orphaned > 0 then Some(s.(orphaned := s.orphaned - 1)) else None
    case _ => None
  }

  function After(workers: nat, s: State, step: Step): Option<State> {
    if step.Arrive? || step.TakePermit? || step.Dispatch? || step.Reply?
      || step.StopWaiting? || step.DropPermit? || step.Disconnect? || step.OrphanDone?
    then HandlerStep(s, step)
    else TaskStep(workers, s, step)
  }

  function Run(workers: nat, steps: seq<Step>): Option<State> {
    if steps == [] then Some(Boot(workers))
    else
      var before := Run(workers, steps[..|steps| - 1]);
      if before.None? then None else After(workers, before.value, steps[|steps| - 1])
  }

  // ---- What every state of every run satisfies ----

  /** All permits in existence: free, drained by the probe, or in a handler's hands. */
  function Permits(s: State): nat { s.available + s.drained + s.holding + s.inPool }

  /** Client requests inside the pool, their clients still there or not. */
  function InPool(s: State): nat { s.inPool + s.orphaned }

  predicate Terminal(status: Status) { !status.Running? }

  /** The tasks before the readiness flag can have been set. */
  predicate NotYetOpen(t: Task) { !t.Finished? && !t.Releasing? }

  function RouteOf(t: Task): Option<Route> {
    if t.StoringModel? || t.StoringStatus? || t.CheckingDense? || t.CheckingSparse? || t.Opening? || t.Finished?
    then Some(t.route)
    else if t.Draining? || t.Forgetting? || t.Sweeping? || t.Releasing? then Some(Probed)
    else None
  }

  /** The permits once the bootstrap task has ended. */
  function FinalPermits(workers: nat, route: Route): nat {
    if route.Probed? then InitialPermits(workers) - DrainCount(workers) + workers else InitialPermits(workers)
  }

  predicate PermitsAccounted(workers: nat, s: State) {
    && s.drained == (if s.task.Forgetting? then DrainCount(workers) else 0)
    && Permits(s) == PermitsDue(workers, s.task)
  }

  /** The drained permits are gone from the moment they are forgotten until the task adds N. */
  function PermitsDue(workers: nat, t: Task): nat {
    if t.Finished? then FinalPermits(workers, t.route)
    else if RouteOf(t) == Some(Probed) && !t.Draining? && !t.Forgetting? then InitialPermits(workers) - DrainCount(workers)
    else InitialPermits(workers)
  }

  predicate ReadyDisciplined(s: State) {
    && (s.ready ==> !NotYetOpen(s.task) && s.model.Some? && Terminal(s.status))
    && s.flips == (if s.ready then 1 else 0)
    && (!s.ready ==> s.waiting == 0 && s.holding == 0 && InPool(s) == 0)
    && (s.task.StoringStatus? ==> s.model.Some?)
    && (Checking(s.task) || s.task.Opening? || s.task.Releasing? || s.task.Finished? ==> s.model.Some? && Terminal(s.status))
    && (s.task.StoringModel? ==> !s.task.route.Probed?)
  }

  predicate Sound(workers: nat, s: State) { PermitsAccounted(workers, s) && ReadyDisciplined(s) }

  lemma StepKeepsPermits(workers: nat, s: State, step: Step)
    requires Sound(workers, s) && After(workers, s, step).Some?
    ensures PermitsAccounted(workers, After(workers, s, step).value)
  {
    hide LooksConservative;
  }

  lemma StepKeepsReady(workers: nat, s: State, step: Step)
    requires ReadyDisciplined(s) && After(workers, s, step).Some?
    ensures ReadyDisciplined(After(workers, s, step).value)
  {
    hide LooksConservative;
  }

  lemma {:induction false} AlwaysSound(workers: nat, steps: seq<Step>)
    requires Run(workers, steps).Some?
    ensures Sound(workers, Run(workers, steps).value)
  {
    if steps != [] {
      var s := Run(workers, steps[..|steps| - 1]).value;
      AlwaysSound(workers, steps[..|steps| - 1]);
      hide PermitsAccounted, ReadyDisciplined, TaskStep, HandlerStep, After;
      StepKeepsPermits(workers, s, steps[|steps| - 1]);
      StepKeepsReady(workers, s, steps[|steps| - 1]);
    }
  }

  /** During the probe sweep and the readiness checks no client request is in the pool, no handler
      holds a permit and none is even waiting. */
  lemma {:induction false} PoolQuietUntilOpen(workers: nat, steps: seq<Step>)
    requires Run(workers, steps).Some? && NotYetOpen(Run(workers, steps).value.task)
    ensures var s := Run(workers, steps).value; !s.ready && InPool(s) == 0 && s.holding == 0 && s.waiting == 0
  {
    AlwaysSound(workers, steps);
  }

  /** The handlers waiting and holding a permit, and the requests in the pool, by what has happened. */
  datatype Census = Census(waiting: int, holding: int, inPool: int) {

    function Next(step: Step): Census {
      match step
      case Arrive(_) => this.(waiting := waiting + 1)
      case StopWaiting => this.(waiting := waiting - 1)
      case TakePermit => this.(waiting := waiting - 1, holding := holding + 1)
      case DropPermit => this.(holding := holding - 1)
      case Dispatch => this.(holding := holding - 1, inPool := inPool + 1)
      case Reply => this.(inPool := inPool - 1)
      case OrphanDone => this.(inPool := inPool - 1)
      case _ => this
    }
  }

  function CensusOf(steps: seq<Step>): Census {
    if steps == [] then Census(0, 0, 0) else CensusOf(steps[..|steps| - 1]).Next(steps[|steps| - 1])
  }

  /** No handler and no request is ever miscounted. In particular a client that leaves takes its handler
      and permit with it, not the request: what is in the pool is what was dispatched and has neither
      replied nor been finished without its client. */
  lemma {:induction false} EveryoneCounted(workers: nat, steps: seq<Step>)
    requires Run(workers, steps).Some?
    ensures var s := Run(workers, steps).value; CensusOf(steps) == Census(s.waiting, s.holding, InPool(s))
  {
    if steps != [] {
      var s, step := Run(workers, steps[..|steps| - 1]).value, steps[|steps| - 1];
      EveryoneCounted(workers, steps[..|steps| - 1]);
      CensusMoves(workers, s, step);
    }
  }

  lemma CensusMoves(workers: nat, s: State, step: Step)
    requires After(workers, s, step).Some?
    ensures var s' := After(workers, s, step).value;
      Census(s.waiting, s.holding, InPool(s)).Next(step) == Census(s'.waiting, s'.holding, InPool(s'))
  {
    hide LooksConservative;
  }

  /** The flag flips at most once, and by then the cost model and a terminal probe status are stored. */
  lemma ReadyFlipsOnceAndLate(workers: nat, steps: seq<Step>)
    requires Run(workers, steps).Some?
    ensures var s := Run(workers, steps).value;
      s.flips <= 1 && (s.flips == 1 <==> s.ready) && (s.ready ==> s.model.Some? && Terminal(s.status))
  {
    AlwaysSound(workers, steps);
  }

  /** The results of the readiness checks, in order. */
  function Checks(steps: seq<Step>): seq<bool> {
    if steps == [] then []
    else
      var step, front := steps[|steps| - 1], Checks(steps[..|steps| - 1]);
      if step.Check? then front + [step.passes] else front
  }

  /** The route the pool's success was followed by. */
  function Chosen(steps: seq<Step>): Option<Route> {
    if steps == [] then None
    else
      var step := steps[|steps| - 1];
      if step.PoolReady? then Some(step.route) else Chosen(steps[..|steps| - 1])
  }

  /** The coefficients last stored, by whichever route. */
  function Stored(steps: seq<Step>): Option<(real, real)> {
    if steps == [] then None
    else
      var step := steps[|steps| - 1];
      if step.StoreModel? || step.Sweep? then Some((step.a, step.b)) else Stored(steps[..|steps| - 1])
  }

  /** How far the task is, told by the checks made, the route chosen and the model stored. */
  ghost predicate Told(s: State, checks: seq<bool>, chosen: Option<Route>, stored: Option<(real, real)>) {
    && s.model == stored
    && (s.ready ==> checks == [true, true])
    && (false in checks ==> !s.ready && |checks| <= 2)
    && (RouteOf(s.task).Some? ==> RouteOf(s.task) == chosen)
    && match s.task
       case AwaitingPool => checks == [] && chosen == None
       case CheckingDense(_) => checks == []
       case CheckingSparse(_) => checks == [true]
       case Opening(_) => checks == [true, true]
       case Releasing => s.ready || false in checks
       case Finished(route) => s.ready || (route == Probed && false in checks)
       case Aborted => chosen == None || (chosen != Some(Probed) && false in checks)
       case _ => checks == []
  }

  lemma StepTells(workers: nat, s: State, step: Step, checks: seq<bool>, chosen: Option<Route>, stored: Option<(real, real)>)
    requires After(workers, s, step).Some? && Told(s, checks, chosen, stored)
    ensures Told(After(workers, s, step).value, if step.Check? then checks + [step.passes] else checks,
                 if step.PoolReady? then Some(step.route) else chosen,
                 if step.StoreModel? || step.Sweep? then Some((step.a, step.b)) else stored)
  {
    hide LooksConservative;
  }

  lemma {:induction false} AlwaysTold(workers: nat, steps: seq<Step>)
    requires Run(workers, steps).Some?
    ensures Told(Run(workers, steps).value, Checks(steps), Chosen(steps), Stored(steps))
  {
    if steps != [] {
      var front, step := steps[..|steps| - 1], steps[|steps| - 1];
      AlwaysTold(workers, front);
      hide Told, After;
      StepTells(workers, Run(workers, front).value, step, Checks(front), Chosen(front), Stored(front));
    }
  }

  /** Over every run: the service is ready only when exactly two checks were made and both passed.
      Once one has failed it is never ready: the probe path gives its permits back and ends, the
      others abort. A task that has ended without a failed check has opened the service, unless the
      pool itself failed. The model stored is the one last handed over. */
  lemma ReadyOnlyIfChecked(workers: nat, steps: seq<Step>)
    requires Run(workers, steps).Some?
    ensures var s, checks := Run(workers, steps).value, Checks(steps);
      && s.model == Stored(steps)
      && (s.ready ==> checks == [true, true])
      && (false in checks ==> !s.ready)
      && (false in checks ==>
            if Chosen(steps) == Some(Probed) then s.task.Releasing? || s.task == Finished(Probed) else s.task.Aborted?)
      && (s.task.Finished? && false !in checks ==> s.ready)
      && (s.task.Aborted? && false !in checks ==> Chosen(steps) == None)
  {
    AlwaysTold(workers, steps);
  }

  /** The readiness flag is what opening sets, and the gate lets a handler through exactly when the
      flag is set and a worker is alive. */
  lemma {:induction false} OpenIffReady(workers: nat, steps: seq<Step>, live: bool)
    requires Run(workers, steps).Some?
    ensures var s := Run(workers, steps).value;
      && (s.ready <==> Open in steps)
      && (After(workers, s, Arrive(live)).Some? <==> live && Open in steps)
  {
    if steps != [] {
      var front, step := steps[..|steps| - 1], steps[|steps| - 1];
      OpenIffReady(workers, front, live);
      ReadyMoves(workers, Run(workers, front).value, step);
      assert steps == front + [step];
      hide After;
    }
    Gate(workers, Run(workers, steps).value, live);
  }

  lemma ReadyMoves(workers: nat, s: State, step: Step)
    requires After(workers, s, step).Some?
    ensures After(workers, s, step).value.ready <==> s.ready || step == Open
  {
    hide LooksConservative;
  }

  lemma Gate(workers: nat, s: State, live: bool)
    ensures After(workers, s, Arrive(live)).Some? <==> live && s.ready
  {}

  /** The drain is never kept waiting by a client, and leaves no permit to take. */
  lemma DrainIsImmediate(workers: nat, steps: seq<Step>)
    requires Run(workers, steps).Some? && Run(workers, steps).value.task.Draining?
    ensures var s := Run(workers, steps).value;
      && After(workers, s, Acquire).Some?
      && (2 <= workers <= U32_MAX + 1 ==> After(workers, s, Acquire).value.available == 0)
      && (workers == 1 ==> After(workers, s, Acquire).value.available == 1)
  {
    AlwaysSound(workers, steps);
  }

  /** Handlers past the gate never exceed the permits due at that point of the bootstrap: none while
      the service is not open, and never more than the route's final number, which is what exists
      once the bootstrap has ended. */
  lemma PermitsBoundHandlers(workers: nat, steps: seq<Step>)
    requires Run(workers, steps).Some?
    ensures var s := Run(workers, steps).value;
      && s.holding + s.inPool <= PermitsDue(workers, s.task)
      && (NotYetOpen(s.task) ==> s.holding + s.inPool == 0)
      && (RouteOf(s.task).Some? ==> s.holding + s.inPool <= FinalPermits(workers, RouteOf(s.task).value))
      && (s.task.Finished? ==> s.available + s.holding + s.inPool == FinalPermits(workers, s.task.route))
  {
    AlwaysSound(workers, steps);
    hide Run;
  }

  /** What the final number is, for the worker counts a configuration can ask for. */
  lemma FinalPermitCounts(workers: nat, route: Route)
    requires 1 <= workers <= U32_MAX + 1
    ensures route.Probed? && workers >= 2 ==> FinalPermits(workers, route) == workers
    ensures route.Probed? && workers == 1 ==> FinalPermits(workers, route) == 2
    ensures !route.Probed? ==> FinalPermits(workers, route) == InitialPermits(workers)
  {}

  /** The documented full concurrency of one permit per worker is reached exactly on the probe
      path with several workers (as many as a u32 can drain) and on the other paths with one. */
  lemma FullConcurrencyIff(workers: nat, route: Route)
    requires workers >= 1
    ensures FinalPermits(workers, route) == workers <==>
      if route.Probed? then 2 <= workers <= U32_MAX + 1 else workers == 1
  {}

  /** The override path's six stores, with no client about. */
  function OverridePath(a: real, b: real): seq<Step> {
    OverrideStores(a, b) + [Check(true)] + [Check(true)] + [Open]
  }

  function OverrideStores(a: real, b: real): seq<Step> {
    [] + [PoolReady(Override)] + [StoreModel(a, b)] + [StoreStatus]
  }

  lemma Extend(workers: nat, steps: seq<Step>, s: State, step: Step, s': State)
    requires Run(workers, steps) == Some(s) && After(workers, s, step) == Some(s')
    ensures Run(workers, steps + [step]) == Some(s')
  {
    assert (steps + [step])[..|steps|] == steps;
  }

  lemma StoresOnOverride(workers: nat, a: real, b: real)
    ensures Run(workers, OverrideStores(a, b)) ==
      Some(Boot(workers).(task := CheckingDense(Override), model := Some((a, b)), status := Disabled))
  {
    assert Run(workers, []) == Some(Boot(workers));
    hide Run;
    var s0 := Boot(workers);
    var s1 := s0.(task := StoringModel(Override));
    var s2 := s1.(task := StoringStatus(Override), model := Some((a, b)));
    Extend(workers, [], s0, PoolReady(Override), s1);
    Extend(workers, [] + [PoolReady(Override)], s1, StoreModel(a, b), s2);
    Extend(workers, [] + [PoolReady(Override)] + [StoreModel(a, b)], s2, StoreStatus,
           s2.(task := CheckingDense(Override), status := Disabled));
  }

  /** A run on the override path ends open for traffic with the initial permits: the reserved one
      is never added, so four workers serve three requests at a time. */
  lemma ReservedPermitNeverReturned(workers: nat, a: real, b: real)
    ensures var s := Run(workers, OverridePath(a, b));
      s.Some? && s.value.ready && s.value.task == Finished(Override) && Permits(s.value) == InitialPermits(workers)
    ensures InitialPermits(4) == 3
  {
    StoresOnOverride(workers, a, b);
    hide Run, OverrideStores;
    var s := Boot(workers).(task := CheckingDense(Override), model := Some((a, b)), status := Disabled);
    var dense, sparse := s.(task := CheckingSparse(Override)), s.(task := Opening(Override));
    Extend(workers, OverrideStores(a, b), s, Check(true), dense);
    Extend(workers, OverrideStores(a, b) + [Check(true)], dense, Check(true), sparse);
    Extend(workers, OverrideStores(a, b) + [Check(true)] + [Check(true)], sparse, Open,
           s.(task := Finished(Override), ready := true, flips := 1));
  }

  /** The status once the task has stored one, by the route taken: the probe path's says whether the
      coefficients handed over lie within an epsilon of 16384 and 8. */
  ghost predicate StatusFor(status: Status, chosen: Option<Route>, stored: Option<(real, real)>) {
    && chosen.Some? && stored.Some?
    && (status.Disabled? <==> chosen == Some(Override))
    && (status.CacheHit? <==> chosen == Some(Cached))
    && (status.Failed? || status.Complete? <==> chosen == Some(Probed))
    && (chosen == Some(Probed) ==>
          var (a, b) := stored.value;
          status.Failed? <==> -F64_EPSILON < a - 16384.0 < F64_EPSILON && -F64_EPSILON < b - 8.0 < F64_EPSILON)
  }

  /** Over every run the status is still Running until it is stored, and then it is the route's. */
  lemma {:induction false} StatusByRoute(workers: nat, steps: seq<Step>)
    requires Run(workers, steps).Some?
    ensures var s := Run(workers, steps).value;
      && (Terminal(s.status) <==> StoreStatus in steps)
      && (Terminal(s.status) ==> StatusFor(s.status, Chosen(steps), Stored(steps)))
  {
    if steps != [] {
      var front, step := steps[..|steps| - 1], steps[|steps| - 1];
      StatusByRoute(workers, front);
      AlwaysTold(workers, front);
      AlwaysSound(workers, front);
      StatusLate(workers, front);
      assert steps == front + [step];
      hide Run, StatusFor, PermitsAccounted;
      if step == StoreStatus {
        RouteStatus(workers, Run(workers, front).value, Checks(front), Chosen(front), Stored(front));
      } else {
        StatusStays(workers, Run(workers, front).value, step);
      }
    }
  }

  lemma RouteStatus(workers: nat, s: State, checks: seq<bool>, chosen: Option<Route>, stored: Option<(real, real)>)
    requires After(workers, s, StoreStatus).Some? && Told(s, checks, chosen, stored) && ReadyDisciplined(s)
    ensures Terminal(After(workers, s, StoreStatus).value.status)
    ensures StatusFor(After(workers, s, StoreStatus).value.status, chosen, stored)
  {}

  lemma StatusStays(workers: nat, s: State, step: Step)
    requires After(workers, s, step).Some? && step != StoreStatus
    ensures After(workers, s, step).value.status == s.status
    ensures step.PoolReady? || step.StoreModel? || step.Sweep? ==>
      s.task.AwaitingPool? || s.task.StoringModel? || s.task.Sweeping?
  {}

  /** The probe status ends as Failed exactly when the swept coefficients are the conservative ones. */
  lemma StatusReportsFit(workers: nat, steps: seq<Step>)
    requires Run(workers, steps).Some?
    ensures var s := Run(workers, steps).value;
      Terminal(s.status) ==>
        && s.model.Some?
        && (RouteOf(s.task) == Some(Probed) ==>
             (s.status.Failed? <==> LooksConservative(s.model.value.0, s.model.value.1)))
  {
    StatusByRoute(workers, steps);
    AlwaysTold(workers, steps);
    hide Run;
  }

  lemma {:induction false} StatusLate(workers: nat, steps: seq<Step>)
    requires Run(workers, steps).Some?
    ensures var s := Run(workers, steps).value;
      Terminal(s.status) ==> Checking(s.task) || s.task.Opening? || s.task.Releasing? || s.task.Finished? || s.task.Aborted?
  {
    if steps != [] {
      StatusLate(workers, steps[..|steps| - 1]);
    }
  }
}
