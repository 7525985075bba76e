/**
 * The three embedding pipelines (src/embedder/dense.rs, sparse.rs, dual.rs): pack, pad, run, and
 * scatter the rows back. Whatever the cost model, each equals embedding every text by itself.
 */
module Pipelines {
  import opened Numbers
  import opened Outcomes
  import opened CostModels
  import opened Sorting
  import opened BinPacking
  import opened PackingLaws
  import opened JitGuard
  import opened Tokenize
  import opened SparsePool

  type Vec = seq<real>

  datatype ModelVariant = Fp32 | Fp16 | Int8

  /** Output tensors of a run: pooled sentence rows (FP32 only) and per-position hidden states. */
  datatype Outputs = Outputs(sentence: seq<Vec>, hidden: seq<seq<Vec>>)

  datatype RunError = RunError(message: string)

  datatype EmbedError = Rejected(rejection: Rejection) | BadShape(shape: ShapeError) | RunFailed(run: RunError)

  /** A loaded model; `normalize` is the L2 normalisation, `project` the gated sparse-linear layer. */
  datatype Engine = Engine(variant: ModelVariant, run: ChunkArrays -> Result<Outputs, RunError>,
                           normalize: Vec -> Vec, project: Vec -> real)

  datatype EmbedStats = EmbedStats(chunks: nat, maxChunkSeq: nat, totalTokenPositions: nat)

  datatype DualEmbedding = DualEmbedding(dense: Vec, sparse: SparseEmbedding)

  // ---- What is assumed of the engine ----

  /** What a text's rows are, as a function of its own unpadded content. */
  datatype RowModel = RowModel(sentence: Encoding -> Vec, hidden: Encoding -> seq<Vec>)

  ghost predicate RowsAgree(out: Outputs, variant: ModelVariant, rows: RowModel, encs: seq<Encoding>,
                            indices: seq<nat>, padTo: nat)
    requires InRange(indices, |encs|)
  {
    && |out.hidden| == |indices|
    && (variant == Fp32 ==> |out.sentence| == |indices|)
    && (forall k :: 0 <= k < |indices| ==> RowAgrees(out, variant, rows, encs[indices[k]], k, padTo))
  }

  ghost predicate RowAgrees(out: Outputs, variant: ModelVariant, rows: RowModel, enc: Encoding, k: nat, padTo: nat)
    requires k < |out.hidden| && (variant == Fp32 ==> k < |out.sentence|)
  {
    && (variant == Fp32 ==> out.sentence[k] == rows.sentence(enc))
    && |out.hidden[k]| == padTo
    && |rows.hidden(enc)| == |enc.ids| <= padTo
    && out.hidden[k][..|enc.ids|] == rows.hidden(enc)
  }

  /**
   * The contract of the inference runtime: a successful run on the grid of some texts has one row per
   * text, and a row's values on real positions depend only on that text, not on its neighbours or
   * the padding.
   */
  ghost predicate RowLocal(engine: Engine, rows: RowModel) {
    forall encs: seq<Encoding>, indices: seq<nat>, a: ChunkArrays ::
      InRange(indices, |encs|) && WellFormed(encs) && NoneLonger(encs, indices, a.padTo) && a.padTo >= 1
      && IsGrid(a, encs, indices) && engine.run(a).Ok? ==>
        RowsAgree(engine.run(a).value, engine.variant, rows, encs, indices, a.padTo)
  }

  // ---- Each text alone ----

  /** The FP16 and INT8 graphs take the dense vector from position 0, which must be a token. */
  predicate DenseDefined(variant: ModelVariant, encs: seq<Encoding>) {
    variant != Fp32 ==> forall i :: 0 <= i < |encs| ==> encs[i].ids != []
  }

  ghost function DenseOf(engine: Engine, rows: RowModel, enc: Encoding): Vec {
    engine.normalize(if engine.variant == Fp32 then rows.sentence(enc)
                     else if rows.hidden(enc) != [] then rows.hidden(enc)[0] else [])
  }

  function Scores(engine: Engine, hidden: seq<Vec>): (scores: seq<real>)
    ensures |scores| == |hidden|
  {
    seq(|hidden|, j requires 0 <= j < |hidden| => engine.project(hidden[j]))
  }

  /** The pooled embedding of a text; `PooledUnique` makes the choice immaterial. */
  ghost function SparseOf(engine: Engine, rows: RowModel, enc: Encoding): SparseEmbedding {
    if exists out :: IsSparseOf(engine, rows, enc, out)
    then var out :| IsSparseOf(engine, rows, enc, out); out
    else SparseEmbedding([], [])
  }

  ghost predicate IsSparseOf(engine: Engine, rows: RowModel, enc: Encoding, out: SparseEmbedding) {
    && |enc.ids| <= |enc.mask| && |enc.ids| <= |rows.hidden(enc)|
    && IsPooled(Zip(enc.ids, enc.mask, Scores(engine, rows.hidden(enc))), out)
  }

  lemma SparseOfUnique(engine: Engine, rows: RowModel, enc: Encoding, out: SparseEmbedding)
    requires IsSparseOf(engine, rows, enc, out)
    ensures SparseOf(engine, rows, enc) == out
  {
    PooledUnique(Zip(enc.ids, enc.mask, Scores(engine, rows.hidden(enc))), out, SparseOf(engine, rows, enc));
  }

  lemma SparseOfIsPooled(engine: Engine, rows: RowModel, enc: Encoding)
    requires |enc.ids| == |enc.mask| == |rows.hidden(enc)|
    ensures IsSparseOf(engine, rows, enc, SparseOf(engine, rows, enc))
  {
    var out := PooledExists(Zip(enc.ids, enc.mask, Scores(engine, rows.hidden(enc))));
    assert IsSparseOf(engine, rows, enc, out);
  }

  // ---- That is: a run of the engine on that text and nothing else ----

  /** The padded arrays of one text by itself. */
  ghost predicate Alone(a: ChunkArrays, enc: Encoding) {
    a.padTo >= 1 && |enc.ids| <= a.padTo && IsGrid(a, [enc], [0])
  }

  lemma AloneAgrees(engine: Engine, rows: RowModel, enc: Encoding, a: ChunkArrays)
    requires RowLocal(engine, rows) && |enc.mask| == |enc.ids| && Alone(a, enc) && engine.run(a).Ok?
    ensures var out := engine.run(a).value;
      && |out.hidden| == 1 && (engine.variant == Fp32 ==> |out.sentence| == 1)
      && RowAgrees(out, engine.variant, rows, enc, 0, a.padTo)
  {
    hide IsGrid, RowAgrees;
    assert NoneLonger([enc], [0], a.padTo) && WellFormed([enc]);
    assert RowsAgree(engine.run(a).value, engine.variant, rows, [enc], [0], a.padTo);
    assert [enc][[0][0]] == enc;
  }

  /** The dense reference is the normalised output of running the text alone: the sentence row on
      FP32, the first position's hidden state on the other graphs. */
  lemma DenseIsAlone(engine: Engine, rows: RowModel, enc: Encoding, a: ChunkArrays)
    requires RowLocal(engine, rows) && |enc.mask| == |enc.ids| && Alone(a, enc) && engine.run(a).Ok?
    requires engine.variant != Fp32 ==> enc.ids != []
    ensures var out := engine.run(a).value;
      if engine.variant == Fp32
      then |out.sentence| == 1 && DenseOf(engine, rows, enc) == engine.normalize(out.sentence[0])
      else |out.hidden| == 1 && out.hidden[0] != [] && DenseOf(engine, rows, enc) == engine.normalize(out.hidden[0][0])
  {
    AloneAgrees(engine, rows, enc, a);
    hide RowLocal, IsGrid;
    if engine.variant != Fp32 {
      assert engine.run(a).value.hidden[0][..|enc.ids|][0] == engine.run(a).value.hidden[0][0];
    }
  }

  /** The sparse reference pools the text's own tokens, each scored by projecting the hidden state at
      its position in that run. */
  lemma SparseIsAlone(engine: Engine, rows: RowModel, enc: Encoding, a: ChunkArrays, tokens: seq<Token>)
    requires RowLocal(engine, rows) && |enc.mask| == |enc.ids| && Alone(a, enc) && engine.run(a).Ok?
    requires var out := engine.run(a).value;
      |tokens| == |enc.ids| && |out.hidden| == 1 && |enc.ids| <= |out.hidden[0]|
    requires forall j :: 0 <= j < |tokens| ==>
      tokens[j] == Token(enc.ids[j], enc.mask[j], engine.project(engine.run(a).value.hidden[0][j]))
    ensures IsPooled(tokens, SparseOf(engine, rows, enc))
  {
    AloneAgrees(engine, rows, enc, a);
    SparseOfIsPooled(engine, rows, enc);
    var own := engine.run(a).value.hidden[0];
    assert rows.hidden(enc) == own[..|enc.ids|];
    forall j | 0 <= j < |tokens| ensures tokens[j] == Zip(enc.ids, enc.mask, Scores(engine, rows.hidden(enc)))[j] {
      assert own[..|enc.ids|][j] == own[j];
    }
    hide RowLocal, IsGrid, SparseOf, IsPooled;
    assert tokens == Zip(enc.ids, enc.mask, Scores(engine, rows.hidden(enc)));
  }

  // ---- Scattering ----

  /** The first m texts of `order` have their wanted slot; every other slot is still blank. */
  ghost predicate Filled<S>(slots: seq<S>, order: seq<nat>, m: nat, want: seq<S>, blank: S)
    requires m <= |order|
  {
    && |slots| == |want|
    && (forall i :: 0 <= i < |slots| ==> slots[i] == if i in order[..m] then want[i] else blank)
  }

  lemma FillNext<S>(slots: seq<S>, order: seq<nat>, m: nat, want: seq<S>, blank: S)
    requires IsPermutation(order, |want|) && m < |order| && Filled(slots, order, m, want, blank)
    ensures order[m] < |slots| && slots[order[m]] == blank
    ensures Filled(slots[order[m] := want[order[m]]], order, m + 1, want, blank)
  {
    assert order[..m + 1] == order[..m] + [order[m]];
  }

  lemma FillDone<S>(slots: seq<S>, order: seq<nat>, want: seq<S>, blank: S)
    requires IsPermutation(order, |want|) && Filled(slots, order, |order|, want, blank)
    ensures slots == want
  {
    Onto(order, |want|);
    assert order[..|order|] == order;
  }

  /** Where chunk c sits in the packing, and that its padded arrays can be built. */
  lemma ChunkReady(encs: seq<Encoding>, lens: seq<nat>, chunks: seq<seq<nat>>, cm: CostModel, c: nat)
    requires IsPacking(chunks, lens, cm) && c < |chunks| && |lens| == |encs|
    requires forall i :: 0 <= i < |encs| ==> lens[i] == |encs[i].ids|
    ensures InRange(chunks[c], |encs|) && chunks[c] != []
    ensures NoneLonger(encs, chunks[c], Max(ChunkSeq(chunks[c], lens), 1))
    ensures |Flatten(chunks[..c])| + |chunks[c]| == |Flatten(chunks[..c + 1])| <= |Flatten(chunks)|
    ensures IsNext(chunks[c], Flatten(chunks), |Flatten(chunks[..c])|)
  {
    hide CostModel.Fits, Packs;
    PackedChunk(chunks, Flatten(chunks), lens, cm, c);
    ChunkSeqBounds(chunks[c], lens);
    assert Front(chunks[..c + 1]) == chunks[..c];
  }

  // ---- The pipelines ----

  function Sum(lens: seq<nat>): nat {
    if lens == [] then 0 else Sum(Front(lens)) + Last(lens)
  }

  /** The total is one summand per text. */
  lemma {:induction false} SumConcat(s: seq<nat>, t: seq<nat>)
    ensures Sum(s + t) == Sum(s) + Sum(t)
    ensures Sum([]) == 0 && forall x: nat :: Sum([x]) == x
  {
    forall x: nat ensures Sum([x]) == x {
      assert Front([x]) == [];
    }
    if t == [] {
      assert s + t == s;
    } else {
      SumConcat(s, Front(t));
      assert Front(s + t) == s + Front(t);
    }
  }

  function TextLens(encs: seq<Encoding>): (lens: seq<nat>) {
    seq(|encs|, i requires 0 <= i < |encs| => |encs[i].ids|)
  }

  /** As many chunks as the packing has, the longest padded length, all token positions. */
  ghost predicate StatsDescribe(stats: EmbedStats, lens: seq<nat>, cm: CostModel) {
    && (exists chunks :: IsPacking(chunks, lens, cm) && |chunks| == stats.chunks)
    && (forall i :: 0 <= i < |lens| ==> lens[i] <= stats.maxChunkSeq)
    && (stats.maxChunkSeq > 1 ==> stats.maxChunkSeq in lens)
    && (stats.maxChunkSeq == 0 <==> lens == [])
    && stats.totalTokenPositions == Sum(lens)
  }

  /** The engine's run on the padded arrays of chunk c of this packing ends in the error. */
  ghost predicate RunFailsOn(engine: Engine, encs: seq<Encoding>, cm: CostModel, chunks: seq<seq<nat>>, c: nat, error: RunError) {
    var lens := TextLens(encs);
    && IsPacking(chunks, lens, cm) && c < |chunks| && InRange(chunks[c], |encs|)
    && engine.run(Arrays(encs, chunks[c], Max(ChunkSeq(chunks[c], lens), 1))) == Err(error)
  }

  /** A refusal is the guard's verdict on this packing and some single text deserves it; buffers
      always have their shape; any other error is the engine's own on one of the chunks. */
  ghost predicate ErrorExplained(error: EmbedError, engine: Engine, encs: seq<Encoding>, cm: CostModel, guard: Option<TrtJitGuard>) {
    match error
    case Rejected(rejection) => Refuses(guard, TextLens(encs)) && RejectedBy(rejection, encs, cm, guard)
    case BadShape(_) => false
    case RunFailed(e) => exists chunks, c :: RunFailsOn(engine, encs, cm, chunks, c, e)
  }

  ghost predicate RejectedBy(rejection: Rejection, encs: seq<Encoding>, cm: CostModel, guard: Option<TrtJitGuard>) {
    exists chunks :: IsVerdictOn(rejection, encs, cm, guard, chunks)
  }

  ghost predicate IsVerdictOn(rejection: Rejection, encs: seq<Encoding>, cm: CostModel, guard: Option<TrtJitGuard>, chunks: seq<seq<nat>>) {
    && IsPacking(chunks, TextLens(encs), cm) && AllInRange(chunks, |encs|)
    && GuardChunks(guard, chunks, TextLens(encs)) == Fail(rejection)
  }

  ghost function DenseOfAll(engine: Engine, rows: RowModel, encs: seq<Encoding>): (want: seq<Vec>)
    ensures |want| == |encs|
  {
    seq(|encs|, i requires 0 <= i < |encs| => DenseOf(engine, rows, encs[i]))
  }

  /** The dense row of the text at position pos of a chunk. */
  function DenseRow(variant: ModelVariant, out: Outputs, pos: nat): Vec {
    if variant == Fp32 then (if pos < |out.sentence| then out.sentence[pos] else [])
    else if pos < |out.hidden| && out.hidden[pos] != [] then out.hidden[pos][0] else []
  }

  /** A chunk's texts are the next ones of the packing's order. */
  ghost predicate IsNext(chunk: seq<nat>, order: seq<nat>, base: nat) {
    && base + |chunk| <= |order|
    && (forall k :: 0 <= k < |chunk| ==> order[base + k] == chunk[k])
  }

  method ScatterDense(engine: Engine, out: Outputs, chunk: seq<nat>, slots: seq<Vec>,
                      ghost order: seq<nat>, ghost base: nat, ghost want: seq<Vec>) returns (slots': seq<Vec>)
    requires IsPermutation(order, |want|) && IsNext(chunk, order, base) && InRange(chunk, |want|)
    requires Filled(slots, order, base, want, [])
    requires forall k :: 0 <= k < |chunk| ==> engine.normalize(DenseRow(engine.variant, out, k)) == want[chunk[k]]
    ensures Filled(slots', order, base + |chunk|, want, [])
  {
    hide Filled;
    slots' := slots;
    for pos := 0 to |chunk|
      invariant Filled(slots', order, base + pos, want, [])
    {
      assert order[base + pos] == chunk[pos];
      FillNext(slots', order, base + pos, want, []);
      slots' := slots'[chunk[pos] := engine.normalize(DenseRow(engine.variant, out, pos))];
    }
  }

  method EmbedDense(engine: Engine, encs: seq<Encoding>, cm: CostModel, guard: Option<TrtJitGuard>, ghost rows: RowModel)
    returns (r: Result<(seq<Vec>, EmbedStats), EmbedError>)
    requires RowLocal(engine, rows) && WellFormed(encs) && DenseDefined(engine.variant, encs)
    ensures r.Ok? ==> r.value.0 == DenseOfAll(engine, rows, encs)
    ensures r.Ok? ==> StatsDescribe(r.value.1, TextLens(encs), cm)
    ensures r.Err? ==> ErrorExplained(r.error, engine, encs, cm, guard)
    ensures Refuses(guard, TextLens(encs)) ==> r.Err?
  {
    hide CostModel.Fits, IsPacking, RowLocal, IsDivision, Filled, WellFormed, DenseDefined, Refuses, RowsAgree;
    hide IsPermutation, IsNext, NoneLonger, StatsDescribe, Arrays, Flatten;
    var lens := TextLens(encs);
    var chunks := BinPack(lens, cm);
    VerdictOnTexts(guard, chunks, lens, cm);
    PackingOrder(chunks, lens, cm);
    var verdict := GuardChunks(guard, chunks, lens);
    if verdict.Fail? {
      assert IsVerdictOn(verdict.error, encs, cm, guard, chunks);
      return Err(Rejected(verdict.error));
    }
    ghost var want, order := DenseOfAll(engine, rows, encs), Flatten(chunks);
    var slots: seq<Vec> := seq(|encs|, i => []);
    var maxChunkSeq: nat := 0;
    NothingFilled(slots, order, want, []);
    for c := 0 to |chunks|
      invariant |Flatten(chunks[..c])| <= |order|
      invariant Filled(slots, order, |Flatten(chunks[..c])|, want, [])
      invariant maxChunkSeq == LongestRun(chunks, lens, c)
    {
      ChunkReady(encs, lens, chunks, cm, c);
      var chunkMax := Max(ChunkSeq(chunks[c], lens), 1);
      maxChunkSeq := Max(maxChunkSeq, chunkMax);
      var arrays := BuildChunkArrays(encs, chunks[c], chunkMax);
      var outputs := engine.run(arrays.value);
      if outputs.Err? {
        assert RunFailsOn(engine, encs, cm, chunks, c, outputs.error);
        return Err(RunFailed(outputs.error));
      }
      RunAgrees(engine, rows, encs, chunks[c], chunkMax);
      DenseRowsWanted(engine, rows, encs, chunks[c], chunkMax, outputs.value);
      slots := ScatterDense(engine, outputs.value, chunks[c], slots, order, |Flatten(chunks[..c])|, want);
    }
    assert chunks[..|chunks|] == chunks;
    FillDone(slots, order, want, []);
    StatsHold(chunks, lens, cm);
    r := Ok((slots, EmbedStats(|chunks|, maxChunkSeq, Sum(lens))));
  }

  ghost function SparseOfAll(engine: Engine, rows: RowModel, encs: seq<Encoding>): (want: seq<SparseEmbedding>)
    ensures |want| == |encs|
  {
    seq(|encs|, i requires 0 <= i < |encs| => SparseOf(engine, rows, encs[i]))
  }

  /** Projects the hidden states of one text's tokens and pools them. */
  method PoolRow(engine: Engine, out: Outputs, pos: nat, enc: Encoding, padTo: nat, ghost rows: RowModel)
    returns (e: SparseEmbedding)
    requires pos < |out.hidden| && (engine.variant == Fp32 ==> pos < |out.sentence|)
    requires RowAgrees(out, engine.variant, rows, enc, pos, padTo) && |enc.mask| == |enc.ids|
    ensures e == SparseOf(engine, rows, enc)
  {
    var scores := Scores(engine, out.hidden[pos][..|enc.ids|]);
    e := SparseMaxpool(enc.ids, enc.mask, scores);
    SparseOfUnique(engine, rows, enc, e);
  }

  function Filling<T>(want: seq<T>): (slots: seq<Option<T>>)
    ensures |slots| == |want|
  {
    seq(|want|, i requires 0 <= i < |want| => Some(want[i]))
  }

  method ScatterSparse(engine: Engine, out: Outputs, encs: seq<Encoding>, chunk: seq<nat>, padTo: nat,
                       slots: seq<Option<SparseEmbedding>>, ghost order: seq<nat>, ghost base: nat, ghost rows: RowModel)
    returns (slots': seq<Option<SparseEmbedding>>)
    requires IsPermutation(order, |encs|) && IsNext(chunk, order, base) && InRange(chunk, |encs|) && WellFormed(encs)
    requires RowsAgree(out, engine.variant, rows, encs, chunk, padTo)
    requires Filled(slots, order, base, Filling(SparseOfAll(engine, rows, encs)), None)
    ensures Filled(slots', order, base + |chunk|, Filling(SparseOfAll(engine, rows, encs)), None)
  {
    hide Filled, SparseOf, RowAgrees, IsPermutation;
    ghost var want := Filling(SparseOfAll(engine, rows, encs));
    slots' := slots;
    for pos := 0 to |chunk|
      invariant Filled(slots', order, base + pos, want, None)
    {
      var origIdx := chunk[pos];
      assert order[base + pos] == origIdx;
      var e := PoolRow(engine, out, pos, encs[origIdx], padTo, rows);
      FillNext(slots', order, base + pos, want, None);
      assert slots'[origIdx].None?;
      slots' := slots'[origIdx := Some(e)];
    }
  }

  method EmbedSparse(engine: Engine, encs: seq<Encoding>, cm: CostModel, guard: Option<TrtJitGuard>, ghost rows: RowModel)
    returns (r: Result<(seq<SparseEmbedding>, EmbedStats), EmbedError>)
    requires RowLocal(engine, rows) && WellFormed(encs)
    ensures r.Ok? ==> r.value.0 == SparseOfAll(engine, rows, encs)
    ensures r.Ok? ==> StatsDescribe(r.value.1, TextLens(encs), cm)
    ensures r.Err? ==> ErrorExplained(r.error, engine, encs, cm, guard)
    ensures Refuses(guard, TextLens(encs)) ==> r.Err?
  {
    hide CostModel.Fits, IsPacking, RowLocal, IsDivision, Filled, WellFormed, DenseDefined, Refuses, RowsAgree;
    hide IsPermutation, IsNext, NoneLonger, StatsDescribe, Arrays, Flatten, SparseOf;
    var lens := TextLens(encs);
    var chunks := BinPack(lens, cm);
    VerdictOnTexts(guard, chunks, lens, cm);
    PackingOrder(chunks, lens, cm);
    var verdict := GuardChunks(guard, chunks, lens);
    if verdict.Fail? {
      assert IsVerdictOn(verdict.error, encs, cm, guard, chunks);
      return Err(Rejected(verdict.error));
    }
    ghost var want, order := Filling(SparseOfAll(engine, rows, encs)), Flatten(chunks);
    var slots: seq<Option<SparseEmbedding>> := seq(|encs|, i => None);
    var maxChunkSeq: nat := 0;
    NothingFilled(slots, order, want, None);
    for c := 0 to |chunks|
      invariant |Flatten(chunks[..c])| <= |order|
      invariant Filled(slots, order, |Flatten(chunks[..c])|, want, None)
      invariant maxChunkSeq == LongestRun(chunks, lens, c)
    {
      ChunkReady(encs, lens, chunks, cm, c);
      var chunkMax := Max(ChunkSeq(chunks[c], lens), 1);
      maxChunkSeq := Max(maxChunkSeq, chunkMax);
      var arrays := BuildChunkArrays(encs, chunks[c], chunkMax);
      var outputs := engine.run(arrays.value);
      if outputs.Err? {
        assert RunFailsOn(engine, encs, cm, chunks, c, outputs.error);
        return Err(RunFailed(outputs.error));
      }
      RunAgrees(engine, rows, encs, chunks[c], chunkMax);
      slots := ScatterSparse(engine, outputs.value, encs, chunks[c], chunkMax, slots, order, |Flatten(chunks[..c])|, rows);
    }
    assert chunks[..|chunks|] == chunks;
    FillDone(slots, order, want, None);
    StatsHold(chunks, lens, cm);
    r := Ok((Unwrap(slots, SparseOfAll(engine, rows, encs)), EmbedStats(|chunks|, maxChunkSeq, Sum(lens))));
  }

  /** Every slot must be filled: the source's `expect` cannot fire. */
  function Unwrap<T>(slots: seq<Option<T>>, ghost want: seq<T>): (values: seq<T>)
    requires slots == Filling(want)
    ensures values == want
  {
    seq(|slots|, i requires 0 <= i < |slots| => slots[i].value)
  }

  ghost function BothOfAll(engine: Engine, rows: RowModel, encs: seq<Encoding>): (want: seq<DualEmbedding>)
    ensures |want| == |encs|
  {
    seq(|encs|, i requires 0 <= i < |encs| =>
      DualEmbedding(DenseOfAll(engine, rows, encs)[i], SparseOfAll(engine, rows, encs)[i]))
  }

  method ScatterBoth(engine: Engine, out: Outputs, encs: seq<Encoding>, chunk: seq<nat>, padTo: nat,
                     slots: seq<Option<DualEmbedding>>, ghost order: seq<nat>, ghost base: nat, ghost rows: RowModel)
    returns (slots': seq<Option<DualEmbedding>>)
    requires IsPermutation(order, |encs|) && IsNext(chunk, order, base) && InRange(chunk, |encs|) && WellFormed(encs)
    requires RowsAgree(out, engine.variant, rows, encs, chunk, padTo) && DenseDefined(engine.variant, encs)
    requires Filled(slots, order, base, Filling(BothOfAll(engine, rows, encs)), None)
    ensures Filled(slots', order, base + |chunk|, Filling(BothOfAll(engine, rows, encs)), None)
  {
    hide Filled, RowAgrees, DenseRow, IsPermutation, DenseDefined;
    ghost var want := Filling(BothOfAll(engine, rows, encs));
    DenseRowsWanted(engine, rows, encs, chunk, padTo, out);
    slots' := slots;
    for pos := 0 to |chunk|
      invariant Filled(slots', order, base + pos, want, None)
    {
      var origIdx := chunk[pos];
      assert order[base + pos] == origIdx;
      var dense := engine.normalize(DenseRow(engine.variant, out, pos));
      var sparse := PoolRow(engine, out, pos, encs[origIdx], padTo, rows);
      FillNext(slots', order, base + pos, want, None);
      assert slots'[origIdx].None?;
      assert dense == DenseOfAll(engine, rows, encs)[origIdx];
      assert sparse == SparseOfAll(engine, rows, encs)[origIdx];
      assert want[origIdx] == Some(BothOfAll(engine, rows, encs)[origIdx]);
      slots' := slots'[origIdx := Some(DualEmbedding(dense, sparse))];
    }
  }

  method EmbedBoth(engine: Engine, encs: seq<Encoding>, cm: CostModel, guard: Option<TrtJitGuard>, ghost rows: RowModel)
    returns (r: Result<(seq<DualEmbedding>, EmbedStats), EmbedError>)
    requires RowLocal(engine, rows) && WellFormed(encs) && DenseDefined(engine.variant, encs)
    ensures r.Ok? ==> r.value.0 == BothOfAll(engine, rows, encs)
    ensures r.Ok? ==> StatsDescribe(r.value.1, TextLens(encs), cm)
    ensures r.Err? ==> ErrorExplained(r.error, engine, encs, cm, guard)
    ensures Refuses(guard, TextLens(encs)) ==> r.Err?
  {
    hide CostModel.Fits, IsPacking, RowLocal, IsDivision, Filled, WellFormed, DenseDefined, Refuses, RowsAgree;
    hide IsPermutation, IsNext, NoneLonger, StatsDescribe, Arrays, Flatten, SparseOf, DenseOf;
    var lens := TextLens(encs);
    var chunks := BinPack(lens, cm);
    VerdictOnTexts(guard, chunks, lens, cm);
    PackingOrder(chunks, lens, cm);
    var verdict := GuardChunks(guard, chunks, lens);
    if verdict.Fail? {
      assert IsVerdictOn(verdict.error, encs, cm, guard, chunks);
      return Err(Rejected(verdict.error));
    }
    ghost var want, order := Filling(BothOfAll(engine, rows, encs)), Flatten(chunks);
    var slots: seq<Option<DualEmbedding>> := seq(|encs|, i => None);
    var maxChunkSeq: nat := 0;
    NothingFilled(slots, order, want, None);
    for c := 0 to |chunks|
      invariant |Flatten(chunks[..c])| <= |order|
      invariant Filled(slots, order, |Flatten(chunks[..c])|, want, None)
      invariant maxChunkSeq == LongestRun(chunks, lens, c)
    {
      ChunkReady(encs, lens, chunks, cm, c);
      var chunkMax := Max(ChunkSeq(chunks[c], lens), 1);
      maxChunkSeq := Max(maxChunkSeq, chunkMax);
      var arrays := BuildChunkArrays(encs, chunks[c], chunkMax);
      var outputs := engine.run(arrays.value);
      if outputs.Err? {
        assert RunFailsOn(engine, encs, cm, chunks, c, outputs.error);
        return Err(RunFailed(outputs.error));
      }
      RunAgrees(engine, rows, encs, chunks[c], chunkMax);
      slots := ScatterBoth(engine, outputs.value, encs, chunks[c], chunkMax, slots, order, |Flatten(chunks[..c])|, rows);
    }
    assert chunks[..|chunks|] == chunks;
    FillDone(slots, order, want, None);
    StatsHold(chunks, lens, cm);
    r := Ok((Unwrap(slots, BothOfAll(engine, rows, encs)), EmbedStats(|chunks|, maxChunkSeq, Sum(lens))));
  }

  lemma NothingFilled<S>(slots: seq<S>, order: seq<nat>, want: seq<S>, blank: S)
    requires |slots| == |want| && forall i :: 0 <= i < |slots| ==> slots[i] == blank
    ensures |Flatten([])| == 0 && Filled(slots, order, 0, want, blank)
  {}

  lemma PackingOrder(chunks: seq<seq<nat>>, lens: seq<nat>, cm: CostModel)
    requires IsPacking(chunks, lens, cm)
    ensures IsPermutation(Flatten(chunks), |lens|) && |Flatten(chunks)| == |lens|
  {}

  lemma DenseRowsWanted(engine: Engine, rows: RowModel, encs: seq<Encoding>, chunk: seq<nat>, padTo: nat, out: Outputs)
    requires InRange(chunk, |encs|) && DenseDefined(engine.variant, encs)
    requires RowsAgree(out, engine.variant, rows, encs, chunk, padTo)
    ensures forall k :: 0 <= k < |chunk| ==>
      engine.normalize(DenseRow(engine.variant, out, k)) == DenseOfAll(engine, rows, encs)[chunk[k]]
  {
    forall k | 0 <= k < |chunk|
      ensures engine.normalize(DenseRow(engine.variant, out, k)) == DenseOfAll(engine, rows, encs)[chunk[k]]
    {
      var enc := encs[chunk[k]];
      assert RowAgrees(out, engine.variant, rows, enc, k, padTo);
      if engine.variant != Fp32 {
        assert out.hidden[k][0] == out.hidden[k][..|enc.ids|][0];
      }
    }
  }

  /** The longest padded length of the first c chunks. */
  ghost function LongestRun(chunks: seq<seq<nat>>, lens: seq<nat>, c: nat): nat
    requires c <= |chunks| && AllInRange(chunks, |lens|)
  {
    if c == 0 then 0 else Max(LongestRun(chunks, lens, c - 1), Max(ChunkSeq(chunks[c - 1], lens), 1))
  }

  lemma {:induction false} LongestRunBounds(chunks: seq<seq<nat>>, lens: seq<nat>, c: nat)
    requires c <= |chunks| && AllInRange(chunks, |lens|)
    ensures forall d :: 0 <= d < c ==> ChunkSeq(chunks[d], lens) <= LongestRun(chunks, lens, c)
    ensures LongestRun(chunks, lens, c) == 0 <==> c == 0
    ensures LongestRun(chunks, lens, c) > 1 ==> LongestRun(chunks, lens, c) in lens
  {
    if c > 0 {
      LongestRunBounds(chunks, lens, c - 1);
      ChunkSeqBounds(chunks[c - 1], lens);
    }
  }

  lemma StatsHold(chunks: seq<seq<nat>>, lens: seq<nat>, cm: CostModel)
    requires IsPacking(chunks, lens, cm) && AllInRange(chunks, |lens|)
    ensures StatsDescribe(EmbedStats(|chunks|, LongestRun(chunks, lens, |chunks|), Sum(lens)), lens, cm)
  {
    hide CostModel.Fits, LongestRun;
    LongestRunBounds(chunks, lens, |chunks|);
    forall i | 0 <= i < |lens| ensures lens[i] <= LongestRun(chunks, lens, |chunks|) {
      Onto(Flatten(chunks), |lens|);
      ColorOfInRange(chunks, i);
      ChunkSeqBounds(chunks[ColorOf(chunks, i)], lens);
    }
  }

  lemma RunAgrees(engine: Engine, rows: RowModel, encs: seq<Encoding>, indices: seq<nat>, padTo: nat)
    requires RowLocal(engine, rows) && WellFormed(encs)
    requires InRange(indices, |encs|) && NoneLonger(encs, indices, padTo) && padTo >= 1
    requires engine.run(Arrays(encs, indices, padTo)).Ok?
    ensures RowsAgree(engine.run(Arrays(encs, indices, padTo)).value, engine.variant, rows, encs, indices, padTo)
  {
    ArraysAreGrid(encs, indices, padTo);
    assert Arrays(encs, indices, padTo).padTo == padTo;
    hide IsGrid, RowsAgree, NoneLonger, WellFormed;
  }
}
