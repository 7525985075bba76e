/** Padded token and mask buffers of one chunk (src/embedder/tokenize.rs). */
module Tokenize {
  import opened Numbers
  import opened Outcomes
  import opened BinPacking

  datatype Encoding = Encoding(ids: seq<nat>, mask: seq<nat>)

  /** What the tokenizer delivers: one mask entry per token. */
  predicate WellFormed(encs: seq<Encoding>) {
    forall i :: 0 <= i < |encs| ==> |encs[i].mask| == |encs[i].ids|
  }

  const PAD_ID: nat := 1

  /** Two row-major `batch` x `padTo` arrays. */
  datatype ChunkArrays = ChunkArrays(batch: nat, padTo: nat, ids: seq<nat>, mask: seq<nat>)

  /** The flat buffer does not have `batch * padTo` cells. */
  datatype ShapeError = ShapeError(cells: nat)

  function Pad(used: nat, padTo: nat, filler: nat): seq<nat> {
    seq(if used < padTo then padTo - used else 0, _ => filler)
  }

  function IdRows(encs: seq<Encoding>, indices: seq<nat>, padTo: nat): seq<seq<nat>>
    requires InRange(indices, |encs|)
  {
    seq(|indices|, r requires 0 <= r < |indices| =>
      encs[indices[r]].ids + Pad(|encs[indices[r]].ids|, padTo, PAD_ID))
  }

  function MaskRows(encs: seq<Encoding>, indices: seq<nat>, padTo: nat): seq<seq<nat>>
    requires InRange(indices, |encs|)
  {
    seq(|indices|, r requires 0 <= r < |indices| =>
      encs[indices[r]].mask + Pad(|encs[indices[r]].ids|, padTo, 0))
  }

  function Arrays(encs: seq<Encoding>, indices: seq<nat>, padTo: nat): ChunkArrays
    requires InRange(indices, |encs|)
  {
    ChunkArrays(|indices|, padTo, Flatten(IdRows(encs, indices, padTo)), Flatten(MaskRows(encs, indices, padTo)))
  }

  predicate NoneLonger(encs: seq<Encoding>, indices: seq<nat>, padTo: nat)
    requires InRange(indices, |encs|)
  {
    forall r :: 0 <= r < |indices| ==> |encs[indices[r]].ids| <= padTo
  }

  /** Row r of the result is text `indices[r]`, padded to the result's own width: its cells hold the
      text's tokens and mask, then the pad id 1 and mask 0. */
  predicate IsGrid(a: ChunkArrays, encs: seq<Encoding>, indices: seq<nat>)
    requires InRange(indices, |encs|)
  {
    && a.batch == |indices| && |a.ids| == |a.mask| == a.batch * a.padTo
    && forall r, c :: 0 <= r < a.batch && 0 <= c < a.padTo ==> IsCell(a, encs[indices[r]], r, c)
  }

  predicate IsCell(a: ChunkArrays, enc: Encoding, r: nat, c: nat) {
    && r * a.padTo + c < |a.ids| && r * a.padTo + c < |a.mask| && (c < |enc.ids| ==> c < |enc.mask|)
    && a.ids[r * a.padTo + c] == (if c < |enc.ids| then enc.ids[c] else 1)
    && a.mask[r * a.padTo + c] == (if c < |enc.ids| then enc.mask[c] else 0)
  }

  method BuildChunkArrays(encs: seq<Encoding>, indices: seq<nat>, padTo: nat) returns (r: Result<ChunkArrays, ShapeError>)
    requires InRange(indices, |encs|)
    ensures WellFormed(encs) ==> (r.Ok? <==> NoneLonger(encs, indices, padTo))
    ensures r.Ok? ==> r.value == Arrays(encs, indices, padTo)
    ensures r.Ok? ==> r.value.batch == |indices| && r.value.padTo == padTo
    ensures r.Ok? ==> |r.value.ids| == |indices| * padTo && |r.value.mask| == |indices| * padTo
    ensures r.Ok? && WellFormed(encs) ==> IsGrid(r.value, encs, indices)
  {
    ghost var idRows, maskRows := IdRows(encs, indices, padTo), MaskRows(encs, indices, padTo);
    var idsFlat: seq<nat> := [];
    var maskFlat: seq<nat> := [];
    for k := 0 to |indices|
      invariant idsFlat == Flatten(idRows[..k]) && maskFlat == Flatten(maskRows[..k])
    {
      var enc := encs[indices[k]];
      FlattenNext(idRows, k);
      FlattenNext(maskRows, k);
      idsFlat := idsFlat + (enc.ids + Pad(|enc.ids|, padTo, PAD_ID));
      maskFlat := maskFlat + (enc.mask + Pad(|enc.ids|, padTo, 0));
    }
    assert idRows[..|indices|] == idRows && maskRows[..|indices|] == maskRows;
    if WellFormed(encs) {
      BufferSizes(encs, indices, padTo);
    }
    if |idsFlat| != |indices| * padTo {
      return Err(ShapeError(|idsFlat|));
    }
    if |maskFlat| != |indices| * padTo {
      return Err(ShapeError(|maskFlat|));
    }
    r := Ok(ChunkArrays(|indices|, padTo, idsFlat, maskFlat));
    if WellFormed(encs) {
      ArraysAreGrid(encs, indices, padTo);
    }
  }

  lemma FlattenNext(rows: seq<seq<nat>>, k: nat)
    requires k < |rows|
    ensures Flatten(rows[..k + 1]) == Flatten(rows[..k]) + rows[k]
  {
    assert Front(rows[..k + 1]) == rows[..k];
  }

  lemma BufferSizes(encs: seq<Encoding>, indices: seq<nat>, padTo: nat)
    requires InRange(indices, |encs|) && WellFormed(encs)
    ensures |Flatten(IdRows(encs, indices, padTo))| == |indices| * padTo <==> NoneLonger(encs, indices, padTo)
    ensures |Flatten(MaskRows(encs, indices, padTo))| == |indices| * padTo <==> NoneLonger(encs, indices, padTo)
  {
    RowLengths(IdRows(encs, indices, padTo), padTo);
    RowLengths(MaskRows(encs, indices, padTo), padTo);
    forall r | 0 <= r < |indices|
      ensures |IdRows(encs, indices, padTo)[r]| == padTo <==> |encs[indices[r]].ids| <= padTo
      ensures |MaskRows(encs, indices, padTo)[r]| == padTo <==> |encs[indices[r]].ids| <= padTo
    {}
  }

  lemma Distribute(n: nat, w: nat)
    ensures (n + 1) * w == n * w + w
  {}

  /** Rows at least w long fill exactly rows x w cells when and only when all are w long. */
  lemma {:induction false} RowLengths(rows: seq<seq<nat>>, w: nat)
    requires forall r :: 0 <= r < |rows| ==> |rows[r]| >= w
    ensures |Flatten(rows)| >= |rows| * w
    ensures |Flatten(rows)| == |rows| * w <==> forall r :: 0 <= r < |rows| ==> |rows[r]| == w
  {
    if rows != [] {
      RowLengths(Front(rows), w);
      Distribute(|rows| - 1, w);
      assert forall r :: 0 <= r < |rows| - 1 ==> rows[r] == Front(rows)[r];
      assert |Last(rows)| >= w;
    }
  }

  lemma {:induction false} FlatCell(rows: seq<seq<nat>>, w: nat, r: nat, c: nat)
    requires forall q :: 0 <= q < |rows| ==> |rows[q]| == w
    requires r < |rows| && c < w
    ensures r * w + c < |Flatten(rows)| && Flatten(rows)[r * w + c] == rows[r][c]
  {
    RowLengths(Front(rows), w);
    if r < |rows| - 1 {
      FlatCell(Front(rows), w, r, c);
    }
  }

  /** Cell (r, c) is token c of text r, or padding past its end. */
  lemma ArrayCell(encs: seq<Encoding>, indices: seq<nat>, padTo: nat, r: nat, c: nat)
    requires WellFormed(encs) && InRange(indices, |encs|) && NoneLonger(encs, indices, padTo)
    requires var a := Arrays(encs, indices, padTo); r < a.batch && c < a.padTo
    ensures r < |indices| && IsCell(Arrays(encs, indices, padTo), encs[indices[r]], r, c)
  {
    FlatCell(IdRows(encs, indices, padTo), padTo, r, c);
    FlatCell(MaskRows(encs, indices, padTo), padTo, r, c);
  }

  lemma ArraysAreGrid(encs: seq<Encoding>, indices: seq<nat>, padTo: nat)
    requires WellFormed(encs) && InRange(indices, |encs|) && NoneLonger(encs, indices, padTo)
    ensures IsGrid(Arrays(encs, indices, padTo), encs, indices)
  {
    BufferSizes(encs, indices, padTo);
    var a := Arrays(encs, indices, padTo);
    forall r, c | 0 <= r < a.batch && 0 <= c < a.padTo ensures IsCell(a, encs[indices[r]], r, c) {
      ArrayCell(encs, indices, padTo, r, c);
    }
  }

  /** That description leaves one pair of buffers for each width. */
  lemma GridUnique(a: ChunkArrays, b: ChunkArrays, encs: seq<Encoding>, indices: seq<nat>)
    requires InRange(indices, |encs|) && IsGrid(a, encs, indices) && IsGrid(b, encs, indices) && a.padTo == b.padTo
    ensures a == b
  {
    forall k | 0 <= k < |a.ids| ensures a.ids[k] == b.ids[k] && a.mask[k] == b.mask[k] {
      var r, c := Locate(k, a.batch, a.padTo);
      assert IsCell(a, encs[indices[r]], r, c) && IsCell(b, encs[indices[r]], r, c);
    }
  }

  lemma Locate(k: nat, batch: nat, width: nat) returns (r: nat, c: nat)
    requires k < batch * width
    ensures r < batch && c < width && k == r * width + c
  {
    r, c := k / width, k % width;
    if r >= batch {
      Larger(batch, r, width);
    }
  }
}
