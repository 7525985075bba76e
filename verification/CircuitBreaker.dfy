/** Inference outcomes and the consecutive-failure counter (src/embedder/worker/guard.rs). */
module CircuitBreaker {
  import opened Numbers

  datatype InferenceOutcome = Succeeded | Failure | TrtFatal | CircuitBreak | Rejected

  /** What the flags read off one inference result say. */
  datatype Verdict = Verdict(trtFatal: bool, guardRejected: bool, isErr: bool) {

    /** The counter moves: neither a refusal by the guard nor a fatal engine build. */
    predicate Counted() { !trtFatal && !guardRejected }
  }

  function Classify(v: Verdict, failures: nat, threshold: nat): InferenceOutcome {
    if v.trtFatal then TrtFatal
    else if v.guardRejected then Rejected
    else if v.isErr then
      if failures + 1 >= threshold then CircuitBreak else Failure
    else Succeeded
  }

  /** Which outcome a verdict has: a fatal build beats a refusal, a refusal beats an error. */
  lemma ClassifiedIff(v: Verdict, failures: nat, threshold: nat)
    ensures var o := Classify(v, failures, threshold);
      && (o.TrtFatal? <==> v.trtFatal)
      && (o.Rejected? <==> !v.trtFatal && v.guardRejected)
      && (o.Succeeded? <==> !v.trtFatal && !v.guardRejected && !v.isErr)
      && (o.CircuitBreak? <==> !v.trtFatal && !v.guardRejected && v.isErr && failures + 1 >= threshold)
      && (o.Failure? <==> !v.trtFatal && !v.guardRejected && v.isErr && failures + 1 < threshold)
  {}

  function NextFailures(outcome: InferenceOutcome, failures: nat): nat {
    match outcome
    case Succeeded => 0
    case CircuitBreak => 0
    case Failure => failures + 1
    case TrtFatal => failures
    case Rejected => failures
  }

  predicate ShouldUnload(outcome: InferenceOutcome) { outcome.CircuitBreak? }

  /** The counter after a history of verdicts, as the request loop keeps it. */
  function Counter(history: seq<Verdict>, threshold: nat): nat {
    if history == [] then 0
    else
      var before := Counter(history[..|history| - 1], threshold);
      NextFailures(Classify(history[|history| - 1], before, threshold), before)
  }

  /** The history with refusals and fatal builds erased: true marks an error. */
  function Erased(history: seq<Verdict>): seq<bool> {
    if history == [] then []
    else
      var v, front := history[|history| - 1], Erased(history[..|history| - 1]);
      if v.Counted() then front + [v.isErr] else front
  }

  /** How many errors in a row end the history. */
  function TrailingErrors(h: seq<bool>): nat {
    if h == [] || !h[|h| - 1] then 0 else TrailingErrors(h[..|h| - 1]) + 1
  }

  /** The longest all-error suffix of the history has this length. */
  predicate EndsInErrors(h: seq<bool>, k: nat) {
    && k <= |h|
    && (forall i :: |h| - k <= i < |h| ==> h[i])
    && (k < |h| ==> !h[|h| - k - 1])
  }

  lemma {:induction false} TrailingRun(h: seq<bool>)
    ensures EndsInErrors(h, TrailingErrors(h))
  {
    if h != [] && h[|h| - 1] {
      TrailingRun(h[..|h| - 1]);
    }
  }

  /** The counter is the length of the longest all-error suffix of the erased history, a break
      starting a new count; it stays below the threshold. */
  lemma {:induction false} CounterIsTrailingErrors(history: seq<Verdict>, threshold: nat)
    requires threshold >= 1
    ensures EndsInErrors(Erased(history), TrailingErrors(Erased(history)))
    ensures Counter(history, threshold) == TrailingErrors(Erased(history)) % threshold < threshold
  {
    TrailingRun(Erased(history));
    if history != [] {
      var v, front := history[|history| - 1], history[..|history| - 1];
      CounterIsTrailingErrors(front, threshold);
      assert history == front + [v];
      hide Erased;
      ErasedNext(front, v);
      CounterStep(v, TrailingErrors(Erased(front)), threshold);
    }
  }

  /** One verdict moves the remainder as it moves the run of errors. */
  lemma CounterStep(v: Verdict, run: nat, t: nat)
    requires t >= 1
    ensures var before := run % t;
      NextFailures(Classify(v, before, t), before) ==
        if !v.Counted() then before else if v.isErr then (run + 1) % t else 0
    ensures 0 % t == 0 && (run + 1) % t < t
  {
    NextRemainder(run, t);
  }

  lemma NextRemainder(k: nat, t: nat)
    requires t >= 1
    ensures (k + 1) % t == if k % t + 1 >= t then 0 else k % t + 1
  {
    DivideNext(k, t);
  }

  lemma ErasedNext(history: seq<Verdict>, v: Verdict)
    ensures Erased(history + [v]) == if v.Counted() then Erased(history) + [v.isErr] else Erased(history)
    ensures v.Counted() ==>
      TrailingErrors(Erased(history + [v])) == if v.isErr then TrailingErrors(Erased(history)) + 1 else 0
  {
    assert (history + [v])[..|history|] == history;
    var erased := Erased(history);
    assert (erased + [v.isErr])[..|erased|] == erased;
  }

  /** The breaker trips exactly when the erased history ends in a whole number of
      threshold-long runs of errors. */
  lemma BreaksExactlyAtThreshold(history: seq<Verdict>, v: Verdict, threshold: nat)
    requires threshold >= 1
    ensures ShouldUnload(Classify(v, Counter(history, threshold), threshold)) <==>
      var run := TrailingErrors(Erased(history + [v]));
      v.Counted() && run > 0 && run % threshold == 0
  {
    CounterIsTrailingErrors(history, threshold);
    hide Counter;
    ErasedNext(history, v);
    NextRemainder(TrailingErrors(Erased(history)), threshold);
  }

  /** The first trip after a success comes with the threshold-th error in a row. */
  lemma FirstTrip(history: seq<Verdict>, v: Verdict, threshold: nat)
    requires threshold >= 1 && TrailingErrors(Erased(history)) < threshold
    ensures ShouldUnload(Classify(v, Counter(history, threshold), threshold)) <==>
      v.Counted() && TrailingErrors(Erased(history + [v])) == threshold
  {
    CounterIsTrailingErrors(history, threshold);
    var k := TrailingErrors(Erased(history));
    DivideUnique(k, threshold, 0, k);
    hide Counter;
    ErasedNext(history, v);
  }
}
