/**
 * The length-sorted greedy packer (src/binpack.rs): the loop, what it promises, and the proof that
 * no other way of splitting the texts into admissible chunks uses fewer of them.
 */
module BinPacking {
  import opened Numbers
  import opened CostModels
  import opened Sorting

  // ---- What a packing is ----

  predicate InRange(chunk: seq<nat>, n: nat) {
    forall p :: 0 <= p < |chunk| ==> chunk[p] < n
  }

  function Last<T>(s: seq<T>): T
    requires s != []
  {
    s[|s| - 1]
  }

  function Front<T>(s: seq<T>): seq<T>
    requires s != []
  {
    s[..|s| - 1]
  }

  function Flatten(chunks: seq<seq<nat>>): seq<nat> {
    if chunks == [] then [] else Flatten(Front(chunks)) + Last(chunks)
  }

  /** The longest text of a chunk, 0 for an empty chunk. */
  function ChunkSeq(chunk: seq<nat>, lens: seq<nat>): nat
    requires InRange(chunk, |lens|)
  {
    if chunk == [] then 0 else Max(ChunkSeq(Front(chunk), lens), lens[Last(chunk)])
  }

  /** A chunk may be run if it is a single text or is estimated to fit the workspace. */
  predicate Admissible(chunk: seq<nat>, lens: seq<nat>, cm: CostModel)
    requires InRange(chunk, |lens|)
  {
    |chunk| == 1 || cm.Fits(|chunk|, ChunkSeq(chunk, lens))
  }

  ghost predicate SortedByLength(order: seq<nat>, lens: seq<nat>)
    requires InRange(order, |lens|)
  {
    forall p, q :: 0 <= p < q < |order| ==> lens[order[p]] <= lens[order[q]]
  }

  /**
   * The chunks are `order` cut into non-empty admissible pieces, each cut made only because the
   * text after it would not have fitted.
   */
  ghost predicate Packs(chunks: seq<seq<nat>>, order: seq<nat>, lens: seq<nat>, cm: CostModel) {
    if chunks == [] then order == []
    else
      var front, last := Front(chunks), Last(chunks);
      && 0 < |last| <= |order| && order[|order| - |last|..] == last
      && InRange(last, |lens|) && Admissible(last, lens, cm)
      && (front != [] ==> !cm.Fits(|Last(front)| + 1, lens[last[0]]))
      && Packs(front, order[..|order| - |last|], lens, cm)
  }

  /** The packer's promise: every text once, by ascending length, greedily packed. */
  ghost predicate IsPacking(chunks: seq<seq<nat>>, lens: seq<nat>, cm: CostModel) {
    var order := Flatten(chunks);
    IsPermutation(order, |lens|) && SortedByLength(order, lens) && Packs(chunks, order, lens, cm)
  }

  /** Any division of the texts: text i goes to chunk color[i], and every chunk is admissible. */
  ghost predicate IsDivision(color: seq<nat>, k: nat, lens: seq<nat>, cm: CostModel) {
    && |color| == |lens|
    && (forall i :: 0 <= i < |color| ==> color[i] < k)
    && (forall c :: 0 <= c < k ==> AdmissibleSet(Class(color, c), lens, cm))
  }

  ghost function Class(color: seq<nat>, c: nat): set<nat> {
    set i | 0 <= i < |color| && color[i] == c
  }

  /** Fitting at the length of every member is fitting at the length of the longest. */
  ghost predicate AdmissibleSet(s: set<nat>, lens: seq<nat>, cm: CostModel)
    requires forall i :: i in s ==> i < |lens|
  {
    |s| <= 1 || forall i :: i in s ==> cm.Fits(|s|, lens[i])
  }

  // ---- The loop ----

  method SortTexts(lens: seq<nat>) returns (order: seq<nat>)
    ensures IsPermutation(order, |lens|) && SortedByLength(order, lens)
  {
    var key := (i: nat) => if i < |lens| then lens[i] else 0;
    order := SortedIndices(|lens|, key);
    forall p, q | 0 <= p < q < |order| ensures lens[order[p]] <= lens[order[q]] {
      assert key(order[p]) <= key(order[q]);
    }
  }

  method BinPack(lens: seq<nat>, cm: CostModel) returns (chunks: seq<seq<nat>>)
    ensures IsPacking(chunks, lens, cm)
    ensures forall color: seq<nat>, k: nat :: IsDivision(color, k, lens, cm) ==> |chunks| <= k
  {
    hide CostModel.Fits, Packs, ChunkSeq, IsDivision;
    EmptyPacking(lens, cm);
    chunks := [];
    if lens == [] {
      FewestChunks(chunks, lens, cm);
      return;
    }
    var sorted := SortTexts(lens);
    var current: seq<nat> := [];
    var currentMaxSeq: nat := 0;
    for p := 0 to |sorted|
      invariant p == 0 ==> chunks == [] && current == []
      invariant p > 0 ==> current != [] && Packs(chunks + [current], sorted[..p], lens, cm)
      invariant InRange(current, |lens|) && currentMaxSeq == ChunkSeq(current, lens)
      invariant p > 0 ==> currentMaxSeq == lens[sorted[p - 1]]
    {
      var idx := sorted[p];
      var seqLen := lens[idx];
      var newMax := Max(currentMaxSeq, seqLen);
      assert sorted[..p + 1] == sorted[..p] + [idx];
      assert newMax == seqLen;
      if current == [] || cm.Fits(|current| + 1, newMax) {
        Extend(chunks, current, idx, sorted[..p], lens, cm);
        current := current + [idx];
        currentMaxSeq := newMax;
      } else {
        OpenNext(chunks + [current], idx, sorted[..p], lens, cm);
        chunks := chunks + [current];
        current := [idx];
        currentMaxSeq := seqLen;
      }
    }
    assert current != [];
    assert sorted[..|sorted|] == sorted;
    chunks := chunks + [current];
    PacksFlattened(chunks, sorted, lens, cm);
    FewestChunks(chunks, lens, cm);
  }

  lemma EmptyPacking(lens: seq<nat>, cm: CostModel)
    ensures lens == [] ==> IsPacking([], lens, cm)
    ensures ChunkSeq([], lens) == 0
  {}

  lemma Extend(chunks: seq<seq<nat>>, current: seq<nat>, idx: nat, order: seq<nat>, lens: seq<nat>, cm: CostModel)
    requires idx < |lens| && InRange(current, |lens|)
    requires if current == [] then chunks == [] && order == [] else Packs(chunks + [current], order, lens, cm)
    requires current == [] || cm.Fits(|current| + 1, Max(ChunkSeq(current, lens), lens[idx]))
    ensures InRange(current + [idx], |lens|)
    ensures ChunkSeq(current + [idx], lens) == Max(ChunkSeq(current, lens), lens[idx])
    ensures Packs(chunks + [current + [idx]], order + [idx], lens, cm)
  {
    hide CostModel.Fits;
    assert Front(current + [idx]) == current;
    if current == [] {
      assert chunks + [current + [idx]] == [[idx]] && order + [idx] == [idx];
      OneText(idx, lens, cm);
    } else {
      assert Front(chunks + [current]) == chunks == Front(chunks + [current + [idx]]);
      assert (order + [idx])[..|order| - |current|] == order[..|order| - |current|];
      assert (current + [idx])[0] == current[0];
      hide ChunkSeq;
    }
  }

  lemma OneText(idx: nat, lens: seq<nat>, cm: CostModel)
    requires idx < |lens|
    ensures Packs([[idx]], [idx], lens, cm)
  {
    hide CostModel.Fits, ChunkSeq;
    assert Front([[idx]]) == [] && [idx][..0] == [] && [idx][0..] == [idx];
    assert Packs([], [], lens, cm);
  }

  lemma OpenNext(chunks: seq<seq<nat>>, idx: nat, order: seq<nat>, lens: seq<nat>, cm: CostModel)
    requires idx < |lens| && chunks != [] && Packs(chunks, order, lens, cm)
    requires !cm.Fits(|Last(chunks)| + 1, lens[idx])
    ensures Packs(chunks + [[idx]], order + [idx], lens, cm)
    ensures ChunkSeq([idx], lens) == lens[idx]
  {
    hide CostModel.Fits;
    assert Front([idx]) == [];
    assert Front(chunks + [[idx]]) == chunks;
    assert (order + [idx])[..|order|] == order;
  }

  lemma {:induction false} PacksFlattened(chunks: seq<seq<nat>>, order: seq<nat>, lens: seq<nat>, cm: CostModel)
    requires Packs(chunks, order, lens, cm)
    ensures Flatten(chunks) == order
  {
    if chunks != [] {
      PacksFlattened(Front(chunks), order[..|order| - |Last(chunks)|], lens, cm);
    }
  }

  // ---- Why no division uses fewer chunks ----

  /** The sorted text lengths. */
  ghost function Lengths(order: seq<nat>, lens: seq<nat>): seq<nat>
    requires InRange(order, |lens|)
  {
    seq(|order|, p requires 0 <= p < |order| => lens[order[p]])
  }

  predicate Ascending(l: seq<nat>) {
    forall p, q :: 0 <= p <= q < |l| ==> l[p] <= l[q]
  }

  /** Chunks opened over a prefix of the sorted lengths, and where the open one starts. */
  datatype Progress = Progress(chunkCount: nat, start: nat)

  ghost function Scan(l: seq<nat>, m: nat, cm: CostModel): (p: Progress)
    requires m <= |l|
    ensures m > 0 ==> p.start < m
  {
    if m == 0 then Progress(0, 0)
    else if m == 1 then Progress(1, 0)
    else
      var p := Scan(l, m - 1, cm);
      if cm.Fits(m - p.start, l[m - 1]) then p else Progress(p.chunkCount + 1, m - 1)
  }

  /** One admissible run of consecutive texts costs the scan at most one new chunk. */
  lemma {:induction false} AtMostOneMore(l: seq<nat>, m': nat, m: nat, cm: CostModel)
    requires Ascending(l) && m' < m <= |l|
    requires m - m' == 1 || cm.Fits(m - m', l[m - 1])
    ensures Scan(l, m, cm).chunkCount <= Scan(l, m', cm).chunkCount + 1
    ensures Scan(l, m, cm).chunkCount == Scan(l, m', cm).chunkCount + 1 ==> Scan(l, m, cm).start >= m'
  {
    if m - m' > 1 {
      FitsMonotone(cm, m - 1 - m', l[m - 2], m - m', l[m - 1]);
      AtMostOneMore(l, m', m - 1, cm);
      var p := Scan(l, m - 1, cm);
      if p.start >= m' {
        FitsMonotone(cm, m - p.start, l[m - 1], m - m', l[m - 1]);
      }
    }
  }

  lemma {:induction false} LongestMember(s: set<nat>, lens: seq<nat>) returns (top: nat)
    requires s != {} && forall i :: i in s ==> i < |lens|
    ensures top in s && forall i :: i in s ==> lens[i] <= lens[top]
  {
    var x :| x in s;
    if s == {x} {
      top := x;
    } else {
      top := LongestMember(s - {x}, lens);
      if lens[top] < lens[x] { top := x; }
    }
  }

  /** Among any m texts, the longest is at least as long as the m-th shortest of all. */
  lemma LongestIsLate(order: seq<nat>, lens: seq<nat>, s: set<nat>, top: nat)
    requires IsPermutation(order, |lens|) && Ascending(Lengths(order, lens))
    requires top in s && top < |lens| && forall i :: i in s ==> i < |lens| && lens[i] <= lens[top]
    ensures 0 < |s| <= |order| && Lengths(order, lens)[|s| - 1] <= lens[top]
  {
    var l := Lengths(order, lens);
    DistinctSetSize(order);
    Onto(order, |lens|);
    assert s <= ToSet(order);
    SubsetSize(s, ToSet(order));
    if l[|s| - 1] > lens[top] {
      var early := order[..|s| - 1];
      forall i | i in s ensures i in early {
        var p :| 0 <= p < |order| && order[p] == i;
        assert l[p] == lens[i];
        assert order[p] == early[p];
      }
      DistinctSetSize(early);
      SubsetSize(s, ToSet(early));
      assert false;
    }
  }

  /** The texts of the colors in ks. */
  ghost function Classes(color: seq<nat>, ks: set<nat>): set<nat> {
    set i | 0 <= i < |color| && color[i] in ks
  }

  /**
   * The texts of j colors take the scan at most j chunks: drop the color of the longest text; the
   * rest takes j - 1 by induction, and the dropped texts are one admissible run at the end.
   */
  lemma {:induction false} ScanBound(order: seq<nat>, lens: seq<nat>, cm: CostModel, color: seq<nat>, ks: set<nat>)
    requires IsPermutation(order, |lens|) && Ascending(Lengths(order, lens))
    requires |color| == |lens|
    requires forall c <- ks :: AdmissibleSet(Class(color, c), lens, cm)
    ensures |Classes(color, ks)| <= |order|
    ensures Scan(Lengths(order, lens), |Classes(color, ks)|, cm).chunkCount <= |ks|
  {
    hide CostModel.Fits;
    var texts := Classes(color, ks);
    if texts != {} {
      var top := LongestMember(texts, lens);
      LongestIsLate(order, lens, texts, top);
      var c := color[top];
      var dropped := Class(color, c);
      ScanBound(order, lens, cm, color, ks - {c});
      assert texts == dropped + Classes(color, ks - {c});
      assert top in dropped;
      var l, m := Lengths(order, lens), |texts|;
      if |dropped| > 1 {
        FitsMonotone(cm, |dropped|, l[m - 1], |dropped|, lens[top]);
      }
      AtMostOneMore(l, m - |dropped|, m, cm);
    }
  }

  // ---- The loop's chunks are those of the scan ----

  lemma {:induction false} ChunkSeqIsLast(chunk: seq<nat>, lens: seq<nat>)
    requires chunk != [] && InRange(chunk, |lens|) && SortedByLength(chunk, lens)
    ensures ChunkSeq(chunk, lens) == lens[Last(chunk)]
  {
    if |chunk| > 1 {
      ChunkSeqIsLast(Front(chunk), lens);
    }
  }

  lemma {:induction false} ScanWithinChunk(l: seq<nat>, s: nat, e: nat, cm: CostModel)
    requires Ascending(l) && s < e <= |l|
    requires Scan(l, s + 1, cm).start == s
    requires e - s == 1 || cm.Fits(e - s, l[e - 1])
    ensures Scan(l, e, cm) == Scan(l, s + 1, cm)
  {
    if e - s > 1 {
      FitsMonotone(cm, e - 1 - s, l[e - 2], e - s, l[e - 1]);
      ScanWithinChunk(l, s, e - 1, cm);
    }
  }

  lemma {:induction false} PackingScan(chunks: seq<seq<nat>>, m: nat, order: seq<nat>, lens: seq<nat>, cm: CostModel)
    requires InRange(order, |lens|) && Ascending(Lengths(order, lens)) && m <= |order|
    requires Packs(chunks, order[..m], lens, cm)
    ensures Scan(Lengths(order, lens), m, cm).chunkCount == |chunks|
    ensures chunks != [] ==> Scan(Lengths(order, lens), m, cm).start == m - |Last(chunks)|
  {
    hide CostModel.Fits;
    if chunks != [] {
      var front, last := Front(chunks), Last(chunks);
      var l, s := Lengths(order, lens), m - |last|;
      assert order[..m][..s] == order[..s];
      PackingScan(front, s, order, lens, cm);
      LastChunkSeq(order, s, m, lens);
      assert last == order[s..m];
      assert lens[last[0]] == l[s];
      assert Scan(l, s + 1, cm) == Progress(|chunks|, s);
      ScanWithinChunk(l, s, m, cm);
    }
  }

  lemma LastChunkSeq(order: seq<nat>, s: nat, m: nat, lens: seq<nat>)
    requires InRange(order, |lens|) && Ascending(Lengths(order, lens)) && s < m <= |order|
    ensures ChunkSeq(order[s..m], lens) == Lengths(order, lens)[m - 1]
  {
    var l := Lengths(order, lens);
    forall p, q | 0 <= p < q < m - s ensures lens[order[s..m][p]] <= lens[order[s..m][q]] {
      assert l[s + p] <= l[s + q];
    }
    ChunkSeqIsLast(order[s..m], lens);
  }

  /** Any division needs at least as many chunks as the scan opens. */
  lemma ScanAtMostDivision(order: seq<nat>, lens: seq<nat>, cm: CostModel, color: seq<nat>, k: nat)
    requires IsPermutation(order, |lens|) && Ascending(Lengths(order, lens))
    requires IsDivision(color, k, lens, cm)
    ensures Scan(Lengths(order, lens), |lens|, cm).chunkCount <= k
  {
    hide CostModel.Fits;
    var ks := ToSet(Indices(k));
    forall c | c in ks ensures AdmissibleSet(Class(color, c), lens, cm) {
      assert 0 <= c < k;
    }
    ScanBound(order, lens, cm, color, ks);
    DistinctSetSize(Indices(k));
    DistinctSetSize(Indices(|lens|));
    forall i | 0 <= i < |lens| ensures i in Classes(color, ks) && i in Indices(|lens|) {
      assert color[i] == Indices(k)[color[i]] && i == Indices(|lens|)[i];
    }
    assert Classes(color, ks) == ToSet(Indices(|lens|));
  }

  lemma AtMostDivision(chunks: seq<seq<nat>>, lens: seq<nat>, cm: CostModel, color: seq<nat>, k: nat)
    requires IsPacking(chunks, lens, cm) && IsDivision(color, k, lens, cm)
    ensures |chunks| <= k
  {
    hide CostModel.Fits;
    var order := Flatten(chunks);
    assert order[..|lens|] == order;
    SortedLengths(order, lens);
    PackingScan(chunks, |lens|, order, lens, cm);
    ScanAtMostDivision(order, lens, cm, color, k);
  }

  lemma SortedLengths(order: seq<nat>, lens: seq<nat>)
    requires InRange(order, |lens|) && SortedByLength(order, lens)
    ensures Ascending(Lengths(order, lens))
  {}

  /** The packer's output is minimal over every division of the texts, contiguous or not. */
  lemma FewestChunks(chunks: seq<seq<nat>>, lens: seq<nat>, cm: CostModel)
    requires IsPacking(chunks, lens, cm)
    ensures forall color: seq<nat>, k: nat :: IsDivision(color, k, lens, cm) ==> |chunks| <= k
  {
    forall color: seq<nat>, k: nat | IsDivision(color, k, lens, cm) ensures |chunks| <= k {
      AtMostDivision(chunks, lens, cm, color, k);
    }
  }
}
