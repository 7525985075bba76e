/** The in-band TensorRT admission guard (src/embedder/jit_guard.rs). */
module JitGuard {
  import opened CostModels
  import opened Outcomes
  import opened Sorting
  import opened BinPacking
  import opened PackingLaws

  datatype Rejection = Rejection(batch: nat, seqLen: nat, guardSeq: nat, warmedSeqCeiling: nat)

  datatype TrtJitGuard = TrtJitGuard(guardSeq: nat, warmedSeqCeiling: nat) {

    function Admit(batch: nat, seqLen: nat): Outcome<Rejection> {
      if seqLen >= guardSeq && seqLen > warmedSeqCeiling
      then Fail(Rejection(batch, seqLen, guardSeq, warmedSeqCeiling))
      else Pass
    }
  }

  /** A shape is refused exactly when it is long enough to be watched and longer than anything warmed;
      the batch plays no part. The refusal reports the shape and both limits. */
  lemma RefusedIff(guard: TrtJitGuard, batch: nat, seqLen: nat)
    ensures guard.Admit(batch, seqLen).Fail? <==> guard.guardSeq <= seqLen && guard.warmedSeqCeiling < seqLen
    ensures guard.Admit(batch, seqLen).Fail? ==>
      var e := guard.Admit(batch, seqLen).error;
      && e.batch == batch && e.seqLen == seqLen && e.guardSeq == guard.guardSeq && e.warmedSeqCeiling == guard.warmedSeqCeiling
  {}

  predicate AllInRange(chunks: seq<seq<nat>>, n: nat) {
    forall c :: 0 <= c < |chunks| ==> InRange(chunks[c], n)
  }

  /** Scans the chunks in order and stops at the first refused one. */
  function GuardChunks(guard: Option<TrtJitGuard>, chunks: seq<seq<nat>>, lens: seq<nat>): Outcome<Rejection>
    requires AllInRange(chunks, |lens|)
  {
    if guard.None? || chunks == [] then Pass
    else
      var verdict := guard.value.Admit(|chunks[0]|, ChunkSeq(chunks[0], lens));
      if verdict.Fail? then verdict else GuardChunks(guard, chunks[1..], lens)
  }

  lemma {:induction false} GuardPassIff(guard: TrtJitGuard, chunks: seq<seq<nat>>, lens: seq<nat>)
    requires AllInRange(chunks, |lens|)
    ensures GuardChunks(Some(guard), chunks, lens).Pass? <==>
      forall c :: 0 <= c < |chunks| ==> guard.Admit(|chunks[c]|, ChunkSeq(chunks[c], lens)).Pass?
  {
    if chunks != [] {
      GuardPassIff(guard, chunks[1..], lens);
      assert forall c :: 1 <= c < |chunks| ==> chunks[c] == chunks[1..][c - 1];
    }
  }

  /** A refusal names the first chunk that is dangerous and uncovered; those before it pass. */
  lemma {:induction false} FirstRefused(guard: TrtJitGuard, chunks: seq<seq<nat>>, lens: seq<nat>) returns (c: nat)
    requires AllInRange(chunks, |lens|) && GuardChunks(Some(guard), chunks, lens).Fail?
    ensures c < |chunks|
    ensures GuardChunks(Some(guard), chunks, lens) == guard.Admit(|chunks[c]|, ChunkSeq(chunks[c], lens))
    ensures var e := GuardChunks(Some(guard), chunks, lens).error;
      && e.batch == |chunks[c]| && e.seqLen == ChunkSeq(chunks[c], lens)
      && e.guardSeq == guard.guardSeq <= e.seqLen && e.warmedSeqCeiling == guard.warmedSeqCeiling < e.seqLen
    ensures forall d :: 0 <= d < c ==> guard.Admit(|chunks[d]|, ChunkSeq(chunks[d], lens)).Pass?
  {
    if guard.Admit(|chunks[0]|, ChunkSeq(chunks[0], lens)).Fail? {
      c := 0;
    } else {
      var c' := FirstRefused(guard, chunks[1..], lens);
      c := c' + 1;
      assert forall d :: 1 <= d < |chunks| ==> chunks[d] == chunks[1..][d - 1];
    }
  }

  /** On the packer's chunks the guard accepts exactly when the longest text alone is admitted. */
  lemma GuardJudgesLongest(guard: TrtJitGuard, chunks: seq<seq<nat>>, lens: seq<nat>, cm: CostModel, top: nat)
    requires IsPacking(chunks, lens, cm)
    requires top < |lens| && forall i :: 0 <= i < |lens| ==> lens[i] <= lens[top]
    ensures AllInRange(chunks, |lens|)
    ensures GuardChunks(Some(guard), chunks, lens).Pass? <==> guard.Admit(1, lens[top]).Pass?
  {
    AllChunksInRange(chunks, lens, cm);
    Onto(Flatten(chunks), |lens|);
    ColorOfInRange(chunks, top);
    hide CostModel.Fits, IsPacking, GuardChunks;
    GuardPassIff(guard, chunks, lens);
    var c := ColorOf(chunks, top);
    ChunkSeqBounds(chunks[c], lens);
    forall d | 0 <= d < |chunks| ensures ChunkSeq(chunks[d], lens) <= lens[top] {
      ChunkSeqBounds(chunks[d], lens);
    }
    assert ChunkSeq(chunks[c], lens) == lens[top];
  }

  /** So the verdict depends neither on the cost model nor on a retry with another budget. */
  lemma VerdictIgnoresCostModel(guard: Option<TrtJitGuard>, lens: seq<nat>, cm: CostModel, cm': CostModel,
                                chunks: seq<seq<nat>>, chunks': seq<seq<nat>>)
    requires IsPacking(chunks, lens, cm) && IsPacking(chunks', lens, cm')
    ensures AllInRange(chunks, |lens|) && AllInRange(chunks', |lens|)
    ensures GuardChunks(guard, chunks, lens).Pass? <==> GuardChunks(guard, chunks', lens).Pass?
  {
    hide CostModel.Fits, IsPacking;
    AllChunksInRange(chunks, lens, cm);
    AllChunksInRange(chunks', lens, cm');
    if guard.Some? && lens != [] {
      var top := LongestText(lens);
      GuardJudgesLongest(guard.value, chunks, lens, cm, top);
      GuardJudgesLongest(guard.value, chunks', lens, cm', top);
    }
  }

  lemma AllChunksInRange(chunks: seq<seq<nat>>, lens: seq<nat>, cm: CostModel)
    requires IsPacking(chunks, lens, cm)
    ensures AllInRange(chunks, |lens|) && (lens == [] ==> chunks == [])
  {
    forall c | 0 <= c < |chunks| ensures InRange(chunks[c], |lens|) {
      PackedChunk(chunks, Flatten(chunks), lens, cm, c);
    }
  }

  /** Some text alone would be refused. */
  ghost predicate Refuses(guard: Option<TrtJitGuard>, lens: seq<nat>) {
    guard.Some? && exists i :: 0 <= i < |lens| && guard.value.Admit(1, lens[i]).Fail?
  }

  /** On the packer's chunks the verdict is about single texts, whatever the cost model. */
  lemma VerdictOnTexts(guard: Option<TrtJitGuard>, chunks: seq<seq<nat>>, lens: seq<nat>, cm: CostModel)
    requires IsPacking(chunks, lens, cm)
    ensures AllInRange(chunks, |lens|)
    ensures GuardChunks(guard, chunks, lens).Fail? <==> Refuses(guard, lens)
  {
    AllChunksInRange(chunks, lens, cm);
    hide CostModel.Fits, IsPacking;
    if guard.Some? && lens != [] {
      var top := LongestText(lens);
      GuardJudgesLongest(guard.value, chunks, lens, cm, top);
    }
  }

  /** Extending the warmed coverage never turns an admitted shape away. */
  lemma AdmissionMonotone(guardSeq: nat, ceiling: nat, ceiling': nat, batch: nat, seqLen: nat)
    requires ceiling <= ceiling'
    requires TrtJitGuard(guardSeq, ceiling).Admit(batch, seqLen).Pass?
    ensures TrtJitGuard(guardSeq, ceiling').Admit(batch, seqLen).Pass?
  {}
}
