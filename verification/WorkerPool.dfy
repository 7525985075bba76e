/** The worker pool as a step system: workers, init task, queue and clients interleave freely
    (src/embedder/pool.rs, src/embedder/worker/run.rs). */
module WorkerPool {
  import opened Numbers
  import opened Outcomes
  import opened TrtWarmup
  import opened WorkerLoop

  /** Atomic arithmetic on usize wraps. */
  function Wrap(x: int): nat { x % (USIZE_MAX + 1) }

  /** A readiness message; the id names its sender. */
  datatype Signal = Up(id: nat, delta: nat) | Down(id: nat)

  datatype Init =
    | Spawning(id: nat)
    | Awaiting(id: nat)
    | Counting(id: nat, delta: nat) // signal received, counter not yet raised
    | Done
    | InitFailed(id: nat)

  datatype Fate = Queued | Held(worker: nat) | Answered(worker: nat) | Skipped(worker: nat) | Lost

  /** A prewarm folded into the ceiling, and by whom. */
  datatype Raise = Raise(worker: nat, startup: bool, sweep: Sweep)

  /** The shared state. `raises` and `hull` are history: the prewarms folded in so far, and the
      per-dimension range of every shape any of them ran successfully. */
  datatype Pool = Pool(
    workers: seq<Phase>,
    live: nat,
    loaded: nat,
    init: Init,
    ready: seq<Signal>,
    deltas: seq<nat>,
    queue: seq<Request>,
    fates: map<nat, Fate>,
    replies: seq<nat>,
    closed: bool,
    receiverGone: bool,
    ceiling: nat,
    raises: seq<Raise>,
    hull: Option<Box>)

  datatype Step =
    | Act(worker: nat, action: Action)
    | SpawnNext
    | TakeSignal
    | JoinExited
    | CountReady
    | FinishInit
    | Submit(request: Request)
    | CloseChannel
    | DropReceiver

  /** What the caller's configuration guarantees: `workers` is at least 1 and a usize. */
  predicate ValidConfig(cs: seq<WorkerConfig>) { 1 <= |cs| <= USIZE_MAX }

  function Start(cs: seq<WorkerConfig>): Pool {
    Pool(seq(|cs|, i => Absent), |cs|, 0, Spawning(0), [], [], [], map[], [], false, false, 0, [], None)
  }

  /** The channel's side of an action. */
  predicate ChannelAllows(s: Pool, a: Action) {
    match a
    case Spawn => false
    case Receive(r) => s.queue != [] && s.queue[0] == r
    case SeeClosed => s.closed && s.queue == []
    case _ => true
  }

  /** The action lowers `loaded_workers`. */
  predicate Lowers(p: Phase, a: Action) {
    a.LowerLoaded? || (a.SeeClosed? && p.Head? && p.models)
  }

  function LoadedAfter(loaded: nat, p: Phase, a: Action): nat {
    if a.RaiseLoaded? then Wrap(loaded + 1) else if Lowers(p, a) then Wrap(loaded - 1) else loaded
  }

  function LiveAfter(live: nat, a: Action): nat { if a.Exit? then Wrap(live - 1) else live }

  function SignalsAfter(ready: seq<Signal>, w: nat, a: Action): seq<Signal> {
    if a.SendReady? then ready + [Up(w, a.delta)] else if a.SendLoadError? then ready + [Down(w)] else ready
  }

  function RaisesAfter(raises: seq<Raise>, w: nat, p: Phase, a: Action): seq<Raise> {
    if a.RaiseCeiling? then raises + [Raise(w, p.Loaded?, a.sweep)] else raises
  }

  function CeilingAfter(ceiling: nat, p: Phase, a: Action): nat {
    if a.RaiseCeiling? then Max(ceiling, Folded(p, a.sweep)) else ceiling
  }

  function HullAfter(hull: Option<Box>, a: Action): Option<Box> {
    if a.RaiseCeiling? then HullOf(hull, a.sweep.runs) else hull
  }

  /** The action sends the request's reply. */
  predicate Answers(a: Action) { a.Reply? || a.ReplyLoadError? }

  function FatesAfter(fates: map<nat, Fate>, w: nat, a: Action): map<nat, Fate> {
    if a.Receive? then fates[a.request.id := Held(w)]
    else if Answers(a) then fates[a.request.id := Answered(w)]
    else if a.Skip? then fates[a.request.id := Skipped(w)]
    else fates
  }

  function RepliesAfter(replies: seq<nat>, a: Action): seq<nat> {
    if Answers(a) then replies + [a.request.id] else replies
  }

  /** What worker w's action from phase p does to each shared variable. */
  function Effect(s: Pool, w: nat, p: Phase, a: Action): Pool
    requires ChannelAllows(s, a)
  {
    s.(live := LiveAfter(s.live, a),
       loaded := LoadedAfter(s.loaded, p, a),
       ready := SignalsAfter(s.ready, w, a),
       queue := if a.Receive? then s.queue[1..] else s.queue,
       fates := FatesAfter(s.fates, w, a),
       replies := RepliesAfter(s.replies, a),
       ceiling := CeilingAfter(s.ceiling, p, a),
       raises := RaisesAfter(s.raises, w, p, a),
       hull := HullAfter(s.hull, a))
  }

  ghost function ActStep(cs: seq<WorkerConfig>, s: Pool, w: nat, a: Action): Option<Pool>
    requires |cs| == |s.workers|
  {
    if w >= |s.workers| || !ChannelAllows(s, a) then None
    else
      var q := Next(cs[w], s.workers[w], a);
      if q.None? then None
      else Some(Effect(s.(workers := s.workers[w := q.value]), w, s.workers[w], a))
  }

  /** The init task: spawn one worker, await its signal, count it, then the next. */
  function InitStep(s: Pool, step: Step): Option<Pool> {
    match step
    case SpawnNext =>
      if s.init.Spawning? && s.init.id < |s.workers| && s.workers[s.init.id].Absent?
      then Some(s.(workers := s.workers[s.init.id := Loading], init := Awaiting(s.init.id)))
      else None
    case TakeSignal =>
      if s.init.Awaiting? && s.ready != [] then
        if s.ready[0].Up?
        then Some(s.(ready := s.ready[1..], init := Counting(s.init.id, s.ready[0].delta)))
        else Some(s.(ready := s.ready[1..], init := InitFailed(s.init.id)))
      else None
    case JoinExited =>
      if s.init.Awaiting? && s.init.id < |s.workers| && s.workers[s.init.id].Exited?
      then Some(s.(init := InitFailed(s.init.id)))
      else None
    case CountReady =>
      if s.init.Counting?
      then Some(s.(loaded := Wrap(s.loaded + 1), deltas := s.deltas + [s.init.delta], init := Spawning(s.init.id + 1)))
      else None
    case FinishInit =>
      if s.init == Spawning(|s.workers|) then Some(s.(init := Done)) else None
    case _ => None
  }

  predicate Gone(p: Phase) { p.Exited? || p.Absent? }

  predicate AllGone(s: Pool) {
    && (s.init.Done? || s.init.InitFailed?)
    && forall w :: 0 <= w < |s.workers| ==> Gone(s.workers[w])
  }

  function LoseQueued(fates: map<nat, Fate>): map<nat, Fate> {
    map id | id in fates :: if fates[id].Queued? then Lost else fates[id]
  }

  /** Clients and the channel. The queue holds at most four requests per worker; a send with no
      receiver left fails at once; the receiver goes with its last owner. */
  function ClientStep(s: Pool, step: Step): Option<Pool> {
    match step
    case Submit(r) =>
      if s.closed || r.id in s.fates then None
      else if s.receiverGone then Some(s.(fates := s.fates[r.id := Lost]))
      else if |s.queue| < 4 * |s.workers| then Some(s.(queue := s.queue + [r], fates := s.fates[r.id := Queued]))
      else None
    case CloseChannel => if s.closed then None else Some(s.(closed := true))
    case DropReceiver =>
      if AllGone(s) && !s.receiverGone
      then Some(s.(receiverGone := true, queue := [], fates := LoseQueued(s.fates)))
      else None
    case _ => None
  }

  ghost function After(cs: seq<WorkerConfig>, s: Pool, step: Step): Option<Pool>
    requires |cs| == |s.workers|
  {
    match step
    case Act(w, a) => ActStep(cs, s, w, a)
    case Submit(_) => ClientStep(s, step)
    case CloseChannel => ClientStep(s, step)
    case DropReceiver => ClientStep(s, step)
    case _ => InitStep(s, step)
  }

  lemma SameWorkers(cs: seq<WorkerConfig>, s: Pool, step: Step)
    requires |cs| == |s.workers| && After(cs, s, step).Some?
    ensures |After(cs, s, step).value.workers| == |cs|
  {}

  /** The state a run reaches, if every step was possible. */
  ghost function Run(cs: seq<WorkerConfig>, steps: seq<Step>): (s: Option<Pool>)
    ensures s.Some? ==> |s.value.workers| == |cs|
  {
    if steps == [] then Some(Start(cs))
    else
      var before := Run(cs, steps[..|steps| - 1]);
      if before.None? then None
      else
        SameWorkersIfAny(cs, before.value, steps[|steps| - 1]);
        After(cs, before.value, steps[|steps| - 1])
  }

  lemma SameWorkersIfAny(cs: seq<WorkerConfig>, s: Pool, step: Step)
    requires |cs| == |s.workers|
    ensures After(cs, s, step).Some? ==> |After(cs, s, step).value.workers| == |cs|
  {
    if After(cs, s, step).Some? {
      SameWorkers(cs, s, step);
    }
  }
}
