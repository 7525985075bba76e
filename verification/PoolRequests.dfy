/** Every request submitted to the pool ends in exactly one way. */
module PoolRequests {
  import opened WorkerLoop
  import opened WorkerPool
  import opened Sorting

  /** The request's reply channel has been used or dropped. */
  predicate Terminal(f: Fate) { f.Answered? || f.Skipped? || f.Lost? }

  predicate QueuedHere(s: Pool, id: nat) {
    exists i :: 0 <= i < |s.queue| && s.queue[i].id == id
  }

  predicate CarriedBy(p: Phase, id: nat) {
    Carried(p) != [] && Carried(p)[0].id == id
  }

  /** The ledger agrees with where each request really is. */
  predicate QueueAgrees(s: Pool) {
    && (forall i, j :: 0 <= i < j < |s.queue| ==> s.queue[i].id != s.queue[j].id)
    && (forall i :: 0 <= i < |s.queue| ==> s.queue[i].id in s.fates && s.fates[s.queue[i].id].Queued?)
    && (forall id :: id in s.fates && s.fates[id].Queued? ==> QueuedHere(s, id))
    && |s.queue| <= 4 * |s.workers|
  }

  predicate HandsAgree(s: Pool) {
    && (forall w :: 0 <= w < |s.workers| && Carried(s.workers[w]) != [] ==>
          Carried(s.workers[w])[0].id in s.fates && s.fates[Carried(s.workers[w])[0].id] == Held(w))
    && (forall id :: id in s.fates && s.fates[id].Held? ==>
          s.fates[id].worker < |s.workers| && CarriedBy(s.workers[s.fates[id].worker], id))
  }

  ghost predicate RepliesAgree(s: Pool) {
    && Distinct(s.replies)
    && (forall id :: id in s.replies <==> id in s.fates && s.fates[id].Answered?)
  }

  // ---- One action at a time ----

  lemma ActMovesRequest(cs: seq<WorkerConfig>, s: Pool, w: nat, a: Action)
    requires |cs| == |s.workers| && ActStep(cs, s, w, a).Some?
    ensures var s' := ActStep(cs, s, w, a).value;
      && s'.workers == s.workers[w := Next(cs[w], s.workers[w], a).value]
      && s'.queue == (if a.Receive? then s.queue[1..] else s.queue)
      && s'.fates == FatesAfter(s.fates, w, a) && s'.replies == RepliesAfter(s.replies, a)
      && (a.Receive? ==> s.queue != [] && s.queue[0] == a.request)
  {}

  lemma ActKeepsQueue(cs: seq<WorkerConfig>, s: Pool, w: nat, a: Action)
    requires |cs| == |s.workers| && ActStep(cs, s, w, a).Some? && QueueAgrees(s) && HandsAgree(s)
    ensures QueueAgrees(ActStep(cs, s, w, a).value)
  {
    ActMovesRequest(cs, s, w, a);
    CarriedNext(cs[w], s.workers[w], a);
    SettlesHeld(s, w, a);
    hide Next, ActStep, Carried, HandsAgree, QueueAgrees;
    QueueMoves(s, w, a, ActStep(cs, s, w, a).value);
  }

  /** Only a request in the worker's own hands is settled. */
  lemma SettlesHeld(s: Pool, w: nat, a: Action)
    requires HandsAgree(s) && w < |s.workers|
    requires Answers(a) || a.Skip? ==> Carried(s.workers[w]) == [a.request]
    ensures Answers(a) || a.Skip? ==> a.request.id in s.fates && s.fates[a.request.id] == Held(w)
  {
    hide Carried;
  }

  lemma QueueMoves(s: Pool, w: nat, a: Action, s': Pool)
    requires QueueAgrees(s) && |s'.workers| == |s.workers|
    requires a.Receive? ==> s.queue != [] && s.queue[0] == a.request
    requires s'.queue == (if a.Receive? then s.queue[1..] else s.queue) && s'.fates == FatesAfter(s.fates, w, a)
    requires Answers(a) || a.Skip? ==> a.request.id in s.fates && s.fates[a.request.id] == Held(w)
    ensures QueueAgrees(s')
  {
    forall id | id in s'.fates && s'.fates[id].Queued? ensures QueuedHere(s', id) {
      assert QueuedHere(s, id);
      var i :| 0 <= i < |s.queue| && s.queue[i].id == id;
      if a.Receive? {
        assert s'.queue[i - 1].id == id;
      } else {
        assert s'.queue[i].id == id;
      }
    }
  }

  lemma ActKeepsHands(cs: seq<WorkerConfig>, s: Pool, w: nat, a: Action)
    requires |cs| == |s.workers| && ActStep(cs, s, w, a).Some? && QueueAgrees(s) && HandsAgree(s)
    ensures HandsAgree(ActStep(cs, s, w, a).value)
  {
    ActMovesRequest(cs, s, w, a);
    CarriedNext(cs[w], s.workers[w], a);
    QueuedFirst(s, a);
    var q := Next(cs[w], s.workers[w], a).value;
    hide Next, ActStep, Carried, QueueAgrees;
    HandsMove(s, w, a, q, ActStep(cs, s, w, a).value);
  }

  lemma QueuedFirst(s: Pool, a: Action)
    requires QueueAgrees(s) && (a.Receive? ==> s.queue != [] && s.queue[0] == a.request)
    ensures a.Receive? ==> a.request.id in s.fates && s.fates[a.request.id].Queued?
  {}

  lemma HandsMove(s: Pool, w: nat, a: Action, q: Phase, s': Pool)
    requires HandsAgree(s) && w < |s.workers| && s'.workers == s.workers[w := q] && s'.fates == FatesAfter(s.fates, w, a)
    requires a.Receive? ==> Carried(s.workers[w]) == [] && Carried(q) == [a.request]
    requires a.Receive? ==> a.request.id in s.fates && s.fates[a.request.id].Queued?
    requires Answers(a) || a.Skip? ==> Carried(s.workers[w]) == [a.request] && Carried(q) == []
    requires !a.Receive? && !Answers(a) && !a.Skip? ==> Carried(q) == Carried(s.workers[w])
    ensures HandsAgree(s')
  {
    hide Carried;
    assert forall v :: 0 <= v < |s.workers| && v != w ==> s'.workers[v] == s.workers[v];
    forall v | 0 <= v < |s'.workers| && Carried(s'.workers[v]) != []
      ensures Carried(s'.workers[v])[0].id in s'.fates && s'.fates[Carried(s'.workers[v])[0].id] == Held(v)
    {
      if v != w {
        assert Carried(s.workers[v]) == Carried(s'.workers[v]);
      }
    }
  }

  lemma ActKeepsReplies(cs: seq<WorkerConfig>, s: Pool, w: nat, a: Action)
    requires |cs| == |s.workers| && ActStep(cs, s, w, a).Some?
    requires QueueAgrees(s) && HandsAgree(s) && RepliesAgree(s)
    ensures RepliesAgree(ActStep(cs, s, w, a).value)
  {
    ActMovesRequest(cs, s, w, a);
    CarriedNext(cs[w], s.workers[w], a);
    hide Next, ActStep, Carried;
  }

  // ---- Clients and the channel ----

  lemma ClientKeepsQueue(s: Pool, step: Step)
    requires QueueAgrees(s) && HandsAgree(s) && ClientStep(s, step).Some?
    ensures QueueAgrees(ClientStep(s, step).value)
  {
    var s' := ClientStep(s, step).value;
    forall id | id in s'.fates && s'.fates[id].Queued? ensures QueuedHere(s', id) {
      if step.Submit? && id == step.request.id {
        assert s'.queue[|s.queue|].id == id;
      } else {
        assert QueuedHere(s, id);
        var i :| 0 <= i < |s.queue| && s.queue[i].id == id;
        assert s'.queue[i].id == id;
      }
    }
  }

  lemma ClientKeepsHands(s: Pool, step: Step)
    requires HandsAgree(s) && ClientStep(s, step).Some?
    ensures HandsAgree(ClientStep(s, step).value)
  {
    hide Carried;
  }

  lemma ClientKeepsReplies(s: Pool, step: Step)
    requires RepliesAgree(s) && ClientStep(s, step).Some?
    ensures RepliesAgree(ClientStep(s, step).value)
  {}

  lemma InitKeepsLedger(s: Pool, step: Step)
    requires Ledger(s) && InitStep(s, step).Some?
    ensures Ledger(InitStep(s, step).value)
  {
    var s' := InitStep(s, step).value;
    hide InitStep;
    InitTouchesNoRequest(s, step);
    forall id | id in s'.fates && s'.fates[id].Queued? ensures QueuedHere(s', id) {
      assert QueuedHere(s, id);
    }
  }

  lemma InitTouchesNoRequest(s: Pool, step: Step)
    requires InitStep(s, step).Some?
    ensures var s' := InitStep(s, step).value;
      && s'.queue == s.queue && s'.fates == s.fates && s'.replies == s.replies && |s'.workers| == |s.workers|
      && forall w :: 0 <= w < |s.workers| ==> Carried(s'.workers[w]) == Carried(s.workers[w])
  {}

  // ---- Over whole runs ----

  ghost predicate Ledger(s: Pool) { QueueAgrees(s) && HandsAgree(s) && RepliesAgree(s) }

  lemma StepKeepsLedger(cs: seq<WorkerConfig>, s: Pool, step: Step)
    requires |cs| == |s.workers| && Ledger(s) && After(cs, s, step).Some?
    ensures Ledger(After(cs, s, step).value)
  {
    hide QueueAgrees, HandsAgree, RepliesAgree, ActStep, ClientStep, InitStep;
    if step.Act? {
      ActKeepsQueue(cs, s, step.worker, step.action);
      ActKeepsHands(cs, s, step.worker, step.action);
      ActKeepsReplies(cs, s, step.worker, step.action);
    } else if step.Submit? || step.CloseChannel? || step.DropReceiver? {
      ClientKeepsQueue(s, step);
      ClientKeepsHands(s, step);
      ClientKeepsReplies(s, step);
    } else {
      InitKeepsLedger(s, step);
    }
  }

  /** At every point of every run each submitted request is in exactly one place: in the queue
      once, in one worker's hands, or settled; and the replies sent are those of the answered
      requests, one each. */
  lemma {:induction false} LedgerHolds(cs: seq<WorkerConfig>, steps: seq<Step>)
    requires Run(cs, steps).Some?
    ensures Ledger(Run(cs, steps).value)
  {
    if steps != [] {
      LedgerHolds(cs, steps[..|steps| - 1]);
      hide Ledger;
      StepKeepsLedger(cs, Run(cs, steps[..|steps| - 1]).value, steps[|steps| - 1]);
    }
  }

  /** A fate only moves forward: queued, held by one worker, settled. Settled fates stay. */
  predicate Onward(f: Fate, f': Fate) {
    match f
    case Queued => f'.Queued? || f'.Held? || f'.Lost?
    case Held(w) => f' == f || f' == Answered(w) || f' == Skipped(w)
    case _ => f' == f
  }

  lemma FatesMoveOnward(cs: seq<WorkerConfig>, s: Pool, step: Step, id: nat)
    requires |cs| == |s.workers| && Ledger(s) && After(cs, s, step).Some? && id in s.fates
    ensures id in After(cs, s, step).value.fates && Onward(s.fates[id], After(cs, s, step).value.fates[id])
  {
    if step.Act? {
      ActMovesRequest(cs, s, step.worker, step.action);
      CarriedNext(cs[step.worker], s.workers[step.worker], step.action);
      hide Next, ActStep, Carried;
    }
  }

  /** Neither a timeout nor a worker's exit nor anything init does touches any request. */
  lemma TimeoutsConsumeNothing(cs: seq<WorkerConfig>, s: Pool, w: nat, a: Action)
    requires |cs| == |s.workers| && After(cs, s, Act(w, a)).Some? && Ledger(s)
    requires a.TimeOut? || a.LowerLoaded? || a.DropModels? || a.SeeClosed? || a.Exit?
    ensures var s' := After(cs, s, Act(w, a)).value;
      && s'.fates == s.fates && s'.queue == s.queue && s'.replies == s.replies
      && forall id :: id in s.fates && s.fates[id].Held? ==> s.fates[id].worker != w
  {
    ActMovesRequest(cs, s, w, a);
    CarriedNext(cs[w], s.workers[w], a);
    NothingCarried(cs[w], s.workers[w], a);
  }

  lemma NothingCarried(cfg: WorkerConfig, p: Phase, a: Action)
    requires Next(cfg, p, a).Some?
    requires a.TimeOut? || a.LowerLoaded? || a.DropModels? || a.SeeClosed? || a.Exit?
    ensures Carried(p) == []
  {}

  /** A client's send goes through at once exactly while the channel is open and holds fewer than four
      requests per worker, or when nobody is left to receive; then the request is lost, otherwise it
      is queued last. */
  lemma SubmitIff(cs: seq<WorkerConfig>, s: Pool, r: Request)
    requires |cs| == |s.workers|
    ensures After(cs, s, Submit(r)).Some? <==>
      !s.closed && r.id !in s.fates && (s.receiverGone || |s.queue| < 4 * |cs|)
    ensures After(cs, s, Submit(r)).Some? ==>
      var s' := After(cs, s, Submit(r)).value;
      && s'.fates == s.fates[r.id := if s.receiverGone then Lost else Queued]
      && s'.queue == (if s.receiverGone then s.queue else s.queue + [r]) && s'.workers == s.workers && s'.replies == s.replies
  {}

  // ---- The order of service ----

  function Submitted(steps: seq<Step>): seq<Request> {
    if steps == [] then []
    else
      var step, front := steps[|steps| - 1], Submitted(steps[..|steps| - 1]);
      if step.Submit? then front + [step.request] else front
  }

  /** The requests taken from the queue, by whichever worker. */
  function Served(steps: seq<Step>): seq<Request> {
    if steps == [] then []
    else
      var step, front := steps[|steps| - 1], Served(steps[..|steps| - 1]);
      if step.Act? && step.action.Receive? then front + [step.action.request] else front
  }

  /** First come, first served: all submissions, in order, are those the workers together have
      taken, in the order taken, followed by those waiting. With the receiver gone nothing waits,
      and what was taken stays the first part of what was submitted. */
  ghost predicate InTurn(s: Pool, submitted: seq<Request>, served: seq<Request>) {
    && served <= submitted
    && (!s.receiverGone ==> submitted == served + s.queue)
    && (s.receiverGone ==> s.queue == [])
  }

  /** No request is submitted twice, so none is taken twice. */
  ghost predicate OnceEach(s: Pool, submitted: seq<Request>) {
    && (forall i, j :: 0 <= i < j < |submitted| ==> submitted[i].id != submitted[j].id)
    && (forall i :: 0 <= i < |submitted| ==> submitted[i].id in s.fates)
  }

  lemma {:induction false} FirstComeFirstServed(cs: seq<WorkerConfig>, steps: seq<Step>)
    requires Run(cs, steps).Some?
    ensures InTurn(Run(cs, steps).value, Submitted(steps), Served(steps))
    ensures OnceEach(Run(cs, steps).value, Submitted(steps))
  {
    if steps != [] {
      var front, step := steps[..|steps| - 1], steps[|steps| - 1];
      FirstComeFirstServed(cs, front);
      StepKeepsTurns(cs, Run(cs, front).value, step, Submitted(front), Served(front));
    }
  }

  lemma StepKeepsTurns(cs: seq<WorkerConfig>, s: Pool, step: Step, submitted: seq<Request>, served: seq<Request>)
    requires |cs| == |s.workers| && After(cs, s, step).Some?
    requires InTurn(s, submitted, served) && OnceEach(s, submitted)
    ensures var s' := After(cs, s, step).value;
      var submitted' := if step.Submit? then submitted + [step.request] else submitted;
      && InTurn(s', submitted', if step.Act? && step.action.Receive? then served + [step.action.request] else served)
      && OnceEach(s', submitted')
  {
    hide InTurn, OnceEach, ActStep, ClientStep, InitStep;
    if step.Act? {
      ActKeepsTurns(cs, s, step.worker, step.action, submitted, served);
    } else if step.Submit? || step.CloseChannel? || step.DropReceiver? {
      ClientKeepsTurns(s, step, submitted, served);
    } else {
      InitKeepsTurns(s, step, submitted, served);
    }
  }

  lemma ActKeepsTurns(cs: seq<WorkerConfig>, s: Pool, w: nat, a: Action, submitted: seq<Request>, served: seq<Request>)
    requires |cs| == |s.workers| && ActStep(cs, s, w, a).Some?
    requires InTurn(s, submitted, served) && OnceEach(s, submitted)
    ensures var s' := ActStep(cs, s, w, a).value;
      InTurn(s', submitted, if a.Receive? then served + [a.request] else served) && OnceEach(s', submitted)
  {
    ActMovesRequest(cs, s, w, a);
    assert ActStep(cs, s, w, a).value.receiverGone == s.receiverGone;
    hide Next, ActStep;
    if a.Receive? && !s.receiverGone {
      assert s.queue == [a.request] + s.queue[1..];
      assert submitted == served + [a.request] + s.queue[1..];
    }
  }

  lemma ClientKeepsTurns(s: Pool, step: Step, submitted: seq<Request>, served: seq<Request>)
    requires ClientStep(s, step).Some? && InTurn(s, submitted, served) && OnceEach(s, submitted)
    ensures var s' := ClientStep(s, step).value;
      var submitted' := if step.Submit? then submitted + [step.request] else submitted;
      InTurn(s', submitted', served) && OnceEach(s', submitted')
  {
    ClientKeepsOnce(s, step, submitted);
    hide AllGone, LoseQueued, OnceEach;
    if step.Submit? && !s.receiverGone {
      assert submitted + [step.request] == served + (s.queue + [step.request]);
    }
  }

  lemma ClientKeepsOnce(s: Pool, step: Step, submitted: seq<Request>)
    requires ClientStep(s, step).Some? && OnceEach(s, submitted)
    ensures OnceEach(ClientStep(s, step).value, if step.Submit? then submitted + [step.request] else submitted)
  {
    hide AllGone;
  }

  lemma InitKeepsTurns(s: Pool, step: Step, submitted: seq<Request>, served: seq<Request>)
    requires InitStep(s, step).Some? && InTurn(s, submitted, served) && OnceEach(s, submitted)
    ensures InTurn(InitStep(s, step).value, submitted, served) && OnceEach(InitStep(s, step).value, submitted)
  {}

  /** Once every worker is gone and the receiver with them, every request ever submitted has been
      answered once, skipped because its client had left, or lost with the queue. */
  lemma EveryRequestSettles(cs: seq<WorkerConfig>, steps: seq<Step>, id: nat)
    requires Run(cs, steps).Some?
    ensures var s := Run(cs, steps).value;
      AllGone(s) && id in s.fates && !s.fates[id].Queued? ==> Terminal(s.fates[id])
    ensures var s := Run(cs, steps).value;
      s.receiverGone && id in s.fates ==> Terminal(s.fates[id])
  {
    LedgerHolds(cs, steps);
    ReceiverGoesLast(cs, steps);
    var s := Run(cs, steps).value;
    hide Run;
    if id in s.fates && s.fates[id].Queued? {
      assert QueuedHere(s, id);
    }
  }

  /** Has seen the channel closed. */
  predicate SawTheEnd(p: Phase) { p.Leaving? || p == Exited(ChannelClosed) }

  ghost predicate DrainedIfSeen(s: Pool) {
    (exists w :: 0 <= w < |s.workers| && SawTheEnd(s.workers[w])) ==> s.closed && s.queue == []
  }

  /** A closed channel is drained before anyone leaves: once some worker has seen it closed nothing is
      waiting in it, nor ever will be. */
  lemma {:induction false} ClosingDrains(cs: seq<WorkerConfig>, steps: seq<Step>)
    requires Run(cs, steps).Some?
    ensures DrainedIfSeen(Run(cs, steps).value)
  {
    if steps != [] {
      var s, step := Run(cs, steps[..|steps| - 1]).value, steps[|steps| - 1];
      ClosingDrains(cs, steps[..|steps| - 1]);
      hide DrainedIfSeen, ActStep, InitStep, ClientStep;
      if step.Act? {
        ActDrains(cs, s, step.worker, step.action);
      } else if step.Submit? || step.CloseChannel? || step.DropReceiver? {
        ClientDrains(s, step);
      } else {
        InitDrains(s, step);
      }
    }
  }

  lemma SeesTheEnd(cfg: WorkerConfig, p: Phase, a: Action)
    requires Next(cfg, p, a).Some?
    ensures SawTheEnd(Next(cfg, p, a).value) ==> SawTheEnd(p) || a.SeeClosed?
  {}

  lemma ActDrains(cs: seq<WorkerConfig>, s: Pool, w: nat, a: Action)
    requires |cs| == |s.workers| && ActStep(cs, s, w, a).Some? && DrainedIfSeen(s)
    ensures DrainedIfSeen(ActStep(cs, s, w, a).value)
  {
    var s' := ActStep(cs, s, w, a).value;
    ActMovesRequest(cs, s, w, a);
    SeesTheEnd(cs[w], s.workers[w], a);
    assert s'.closed == s.closed && (a.SeeClosed? ==> s.closed && s.queue == []);
    hide Next, ActStep, SawTheEnd;
    if v :| 0 <= v < |s'.workers| && SawTheEnd(s'.workers[v]) {
      assert v != w ==> SawTheEnd(s.workers[v]);
    }
  }

  lemma ClientDrains(s: Pool, step: Step)
    requires ClientStep(s, step).Some? && DrainedIfSeen(s)
    ensures DrainedIfSeen(ClientStep(s, step).value)
  {
    hide AllGone, LoseQueued, SawTheEnd;
  }

  lemma InitDrains(s: Pool, step: Step)
    requires InitStep(s, step).Some? && DrainedIfSeen(s)
    ensures DrainedIfSeen(InitStep(s, step).value)
  {
    var s' := InitStep(s, step).value;
    if v :| 0 <= v < |s'.workers| && SawTheEnd(s'.workers[v]) {
      assert SawTheEnd(s.workers[v]);
    }
  }

  lemma {:induction false} ReceiverGoesLast(cs: seq<WorkerConfig>, steps: seq<Step>)
    requires Run(cs, steps).Some?
    ensures var s := Run(cs, steps).value; s.receiverGone ==> AllGone(s) && s.queue == []
  {
    if steps != [] {
      ReceiverGoesLast(cs, steps[..|steps| - 1]);
      ReceiverStays(cs, Run(cs, steps[..|steps| - 1]).value, steps[|steps| - 1]);
    }
  }

  lemma ReceiverStays(cs: seq<WorkerConfig>, s: Pool, step: Step)
    requires |cs| == |s.workers| && After(cs, s, step).Some?
    requires s.receiverGone ==> AllGone(s) && s.queue == []
    ensures var s' := After(cs, s, step).value; s'.receiverGone ==> AllGone(s') && s'.queue == []
  {
    if step.Act? && s.receiverGone {
      GoneIsStill(cs[step.worker], s.workers[step.worker], step.action);
    }
  }

  lemma GoneIsStill(cfg: WorkerConfig, p: Phase, a: Action)
    ensures Gone(p) && !a.Spawn? ==> Next(cfg, p, a).None?
  {}
}
