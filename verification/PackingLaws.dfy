/** Consequences of the packer's promise: it is itself a division, budgets order chunk counts. */
module PackingLaws {
  import opened CostModels
  import opened Sorting
  import opened BinPacking

  // ---- Chunk by chunk ----

  lemma {:induction false} ChunkSeqBounds(chunk: seq<nat>, lens: seq<nat>)
    requires InRange(chunk, |lens|)
    ensures forall p :: 0 <= p < |chunk| ==> lens[chunk[p]] <= ChunkSeq(chunk, lens)
    ensures chunk != [] ==> exists p :: 0 <= p < |chunk| && lens[chunk[p]] == ChunkSeq(chunk, lens)
  {
    if chunk != [] {
      ChunkSeqBounds(Front(chunk), lens);
      assert forall p :: 0 <= p < |chunk| - 1 ==> chunk[p] == Front(chunk)[p];
      if ChunkSeq(chunk, lens) == lens[Last(chunk)] {
        assert lens[chunk[|chunk| - 1]] == ChunkSeq(chunk, lens);
      } else {
        var p :| 0 <= p < |Front(chunk)| && lens[Front(chunk)[p]] == ChunkSeq(Front(chunk), lens);
        assert lens[chunk[p]] == ChunkSeq(chunk, lens);
      }
    }
  }

  lemma {:induction false} PackedChunk(chunks: seq<seq<nat>>, order: seq<nat>, lens: seq<nat>, cm: CostModel, c: nat)
    requires Packs(chunks, order, lens, cm) && c < |chunks|
    ensures chunks[c] != [] && InRange(chunks[c], |lens|) && Admissible(chunks[c], lens, cm)
    ensures Packs(chunks[..c], Flatten(chunks[..c]), lens, cm)
    ensures Flatten(chunks[..c]) + chunks[c] <= order
  {
    hide CostModel.Fits;
    var front, rest := Front(chunks), order[..|order| - |Last(chunks)|];
    if c < |front| {
      PackedChunk(front, rest, lens, cm, c);
      assert front[..c] == chunks[..c];
    } else {
      assert chunks[..c] == front;
      PacksFlattened(front, rest, lens, cm);
    }
  }

  // ---- The packer's chunks are one of the divisions it is minimal over ----

  function ColorOf(chunks: seq<seq<nat>>, i: nat): nat {
    if chunks == [] then 0
    else if i in Last(chunks) then |chunks| - 1
    else ColorOf(Front(chunks), i)
  }

  lemma {:induction false} ColorOfMember(chunks: seq<seq<nat>>, i: nat, c: nat)
    requires Distinct(Flatten(chunks)) && c < |chunks| && i in chunks[c]
    ensures ColorOf(chunks, i) == c && i in Flatten(chunks)
  {
    var front, last := Front(chunks), Last(chunks);
    if c < |front| {
      assert Flatten(front) == Flatten(chunks)[..|Flatten(front)|];
      ColorOfMember(front, i, c);
    }
  }

  lemma {:induction false} ColorOfInRange(chunks: seq<seq<nat>>, i: nat)
    requires i in Flatten(chunks)
    ensures ColorOf(chunks, i) < |chunks| && i in chunks[ColorOf(chunks, i)]
  {
    if i !in Last(chunks) {
      ColorOfInRange(Front(chunks), i);
    }
  }

  lemma {:induction false} ChunkDistinct(chunks: seq<seq<nat>>, c: nat)
    requires Distinct(Flatten(chunks)) && c < |chunks|
    ensures Distinct(chunks[c])
  {
    var front := Front(chunks);
    if c < |front| {
      assert Flatten(front) == Flatten(chunks)[..|Flatten(front)|];
      ChunkDistinct(front, c);
    } else {
      assert chunks[c] == Flatten(chunks)[|Flatten(front)|..];
    }
  }

  function Coloring(chunks: seq<seq<nat>>, n: nat): (color: seq<nat>) {
    seq(n, i requires 0 <= i < n => ColorOf(chunks, i))
  }

  lemma ColorClass(chunks: seq<seq<nat>>, n: nat, c: nat)
    requires IsPermutation(Flatten(chunks), n) && c < |chunks|
    ensures Class(Coloring(chunks, n), c) == ToSet(chunks[c])
  {
    Onto(Flatten(chunks), n);
    forall i | 0 <= i < n ensures Coloring(chunks, n)[i] == c <==> i in chunks[c] {
      ColorOfInRange(chunks, i);
      if i in chunks[c] { ColorOfMember(chunks, i, c); }
    }
    forall i | i in chunks[c] ensures i < n {
      ColorOfMember(chunks, i, c);
    }
  }

  /** Read as a division, a packing is admissible wherever its own budget or a looser one rules. */
  lemma PackingIsDivision(chunks: seq<seq<nat>>, lens: seq<nat>, cm: CostModel, loose: CostModel)
    requires IsPacking(chunks, lens, cm) && Looser(cm, loose)
    ensures IsDivision(Coloring(chunks, |lens|), |chunks|, lens, loose)
  {
    hide CostModel.Fits;
    var color := Coloring(chunks, |lens|);
    Onto(Flatten(chunks), |lens|);
    forall i | 0 <= i < |lens| ensures color[i] < |chunks| {
      ColorOfInRange(chunks, i);
    }
    forall c | 0 <= c < |chunks| ensures AdmissibleSet(Class(color, c), lens, loose) {
      ColorClass(chunks, |lens|, c);
      ChunkDistinct(chunks, c);
      DistinctSetSize(chunks[c]);
      PackedChunk(chunks, Flatten(chunks), lens, cm, c);
      if |chunks[c]| > 1 {
        MembersFit(chunks[c], lens, loose);
      }
    }
  }

  lemma MembersFit(chunk: seq<nat>, lens: seq<nat>, cm: CostModel)
    requires InRange(chunk, |lens|) && cm.Fits(|chunk|, ChunkSeq(chunk, lens))
    ensures forall i :: i in chunk ==> cm.Fits(|chunk|, lens[i])
  {
    ChunkSeqBounds(chunk, lens);
    forall i | i in chunk ensures cm.Fits(|chunk|, lens[i]) {
      FitsMonotone(cm, |chunk|, lens[i], |chunk|, ChunkSeq(chunk, lens));
    }
  }

  /** A looser model (more workspace, or smaller coefficients) never needs more chunks. */
  lemma LooserNeedsNoMore(tight: CostModel, loose: CostModel, lens: seq<nat>,
                          tightChunks: seq<seq<nat>>, looseChunks: seq<seq<nat>>)
    requires Looser(tight, loose)
    requires IsPacking(tightChunks, lens, tight) && IsPacking(looseChunks, lens, loose)
    ensures |looseChunks| <= |tightChunks|
  {
    PackingIsDivision(tightChunks, lens, tight, loose);
    FewestChunks(looseChunks, lens, loose);
  }

  lemma AdmissibleUnderLooser(tight: CostModel, loose: CostModel, lens: seq<nat>, chunks: seq<seq<nat>>, c: nat)
    requires Looser(tight, loose) && IsPacking(chunks, lens, tight) && c < |chunks|
    ensures InRange(chunks[c], |lens|) && Admissible(chunks[c], lens, loose)
  {
    hide CostModel.Fits;
    PackedChunk(chunks, Flatten(chunks), lens, tight, c);
  }

  /** More workspace and smaller coefficients: never more chunks. */
  lemma ChunkCountMonotone(cm: CostModel, cm': CostModel, lens: seq<nat>,
                           chunks: seq<seq<nat>>, chunks': seq<seq<nat>>)
    requires cm'.a <= cm.a && cm'.b <= cm.b && cm.maxWorkspaceBytes <= cm'.maxWorkspaceBytes
    requires IsPacking(chunks, lens, cm) && IsPacking(chunks', lens, cm')
    ensures |chunks'| <= |chunks|
  {
    LooserModel(cm, cm');
    LooserNeedsNoMore(cm, cm', lens, chunks, chunks');
  }

  /** Two packings of the same texts have as many chunks, however the sort broke ties. */
  lemma TiesDoNotMatter(cm: CostModel, lens: seq<nat>, chunks: seq<seq<nat>>, chunks': seq<seq<nat>>)
    requires IsPacking(chunks, lens, cm) && IsPacking(chunks', lens, cm)
    ensures |chunks| == |chunks'|
  {
    LooserNeedsNoMore(cm, cm, lens, chunks, chunks');
    LooserNeedsNoMore(cm, cm, lens, chunks', chunks);
  }

  lemma {:induction false} LongestText(lens: seq<nat>) returns (top: nat)
    requires lens != []
    ensures top < |lens| && forall i :: 0 <= i < |lens| ==> lens[i] <= lens[top]
  {
    top := 0;
    if |lens| > 1 {
      var t := LongestText(Front(lens));
      top := if lens[t] < Last(lens) then |lens| - 1 else t;
      assert forall i :: 0 <= i < |lens| - 1 ==> lens[i] == Front(lens)[i];
    }
  }

  // ---- Chunks over budget ----

  ghost predicate OverBudget(chunk: seq<nat>, lens: seq<nat>, cm: CostModel)
    requires InRange(chunk, |lens|)
  {
    !cm.Fits(|chunk|, ChunkSeq(chunk, lens))
  }

  lemma {:induction false} OffsetsAscend(chunks: seq<seq<nat>>, c: nat, d: nat)
    requires c < d <= |chunks|
    ensures |Flatten(chunks[..c])| + |chunks[c]| <= |Flatten(chunks[..d])|
  {
    assert Front(chunks[..d]) == chunks[..d - 1];
    if c < d - 1 {
      OffsetsAscend(chunks, c, d - 1);
    }
  }

  /** Texts of later chunks are at least as long. */
  lemma LaterIsLonger(chunks: seq<seq<nat>>, lens: seq<nat>, cm: CostModel, c: nat, d: nat)
    requires IsPacking(chunks, lens, cm) && c < d < |chunks|
    ensures InRange(chunks[c], |lens|) && InRange(chunks[d], |lens|) && chunks[d] != []
    ensures ChunkSeq(chunks[c], lens) <= lens[chunks[d][0]] <= ChunkSeq(chunks[d], lens)
  {
    hide CostModel.Fits, Packs, ChunkSeq;
    var order := Flatten(chunks);
    PackedChunk(chunks, order, lens, cm, c);
    PackedChunk(chunks, order, lens, cm, d);
    OffsetsAscend(chunks, c, d);
    ChunkSeqBounds(chunks[c], lens);
    ChunkSeqBounds(chunks[d], lens);
    var p :| 0 <= p < |chunks[c]| && lens[chunks[c][p]] == ChunkSeq(chunks[c], lens);
    var early, late := |Flatten(chunks[..c])| + p, |Flatten(chunks[..d])|;
    assert order[early] == chunks[c][p] && order[late] == chunks[d][0];
  }

  /** Chunks over budget are single texts, and every chunk after one of them is over budget too. */
  lemma OverBudgetSuffix(chunks: seq<seq<nat>>, lens: seq<nat>, cm: CostModel, c: nat)
    requires IsPacking(chunks, lens, cm) && c < |chunks|
    ensures InRange(chunks[c], |lens|)
    ensures OverBudget(chunks[c], lens, cm) ==> |chunks[c]| == 1
    ensures OverBudget(chunks[c], lens, cm) ==>
      forall d :: c < d < |chunks| ==> InRange(chunks[d], |lens|) && OverBudget(chunks[d], lens, cm)
  {
    hide CostModel.Fits;
    PackedChunk(chunks, Flatten(chunks), lens, cm, c);
    if OverBudget(chunks[c], lens, cm) {
      forall d | c < d < |chunks| ensures InRange(chunks[d], |lens|) && OverBudget(chunks[d], lens, cm) {
        LaterIsLonger(chunks, lens, cm, c, d);
        if !OverBudget(chunks[d], lens, cm) {
          FitsMonotone(cm, 1, ChunkSeq(chunks[c], lens), |chunks[d]|, ChunkSeq(chunks[d], lens));
        }
      }
    }
  }

  /** Every chunk fits exactly when every text would fit alone. */
  lemma AllFitIffSinglesFit(chunks: seq<seq<nat>>, lens: seq<nat>, cm: CostModel)
    requires IsPacking(chunks, lens, cm)
    ensures (forall i :: 0 <= i < |lens| ==> cm.Fits(1, lens[i])) <==>
      (forall c :: 0 <= c < |chunks| ==> InRange(chunks[c], |lens|) && !OverBudget(chunks[c], lens, cm))
  {
    hide CostModel.Fits;
    if forall i :: 0 <= i < |lens| ==> cm.Fits(1, lens[i]) {
      forall c | 0 <= c < |chunks| ensures InRange(chunks[c], |lens|) && !OverBudget(chunks[c], lens, cm) {
        OverBudgetSuffix(chunks, lens, cm, c);
        ChunkSeqBounds(chunks[c], lens);
        PackedChunk(chunks, Flatten(chunks), lens, cm, c);
      }
    }
    if forall c :: 0 <= c < |chunks| ==> InRange(chunks[c], |lens|) && !OverBudget(chunks[c], lens, cm) {
      forall i | 0 <= i < |lens| ensures cm.Fits(1, lens[i]) {
        Onto(Flatten(chunks), |lens|);
        ColorOfInRange(chunks, i);
        var c := ColorOf(chunks, i);
        ChunkSeqBounds(chunks[c], lens);
        FitsMonotone(cm, 1, lens[i], |chunks[c]|, ChunkSeq(chunks[c], lens));
      }
    }
  }
}
