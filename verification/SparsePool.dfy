/** Max-pooling of sparse scores by token id (src/embedder/math.rs). */
module SparsePool {
  import opened Sorting

  datatype SparseEmbedding = SparseEmbedding(indices: seq<nat>, values: seq<real>)

  datatype Token = Token(id: nat, mask: nat, score: real)

  /** CLS, PAD, SEP/EOS and UNK never appear in the output. */
  const SPECIAL_TOKENS: set<nat> := {0, 1, 2, 3}

  predicate Counts(t: Token) {
    t.mask != 0 && t.id !in SPECIAL_TOKENS && t.score > 0.0
  }

  function Zip(ids: seq<nat>, mask: seq<nat>, scores: seq<real>): (tokens: seq<Token>)
    requires |ids| <= |mask| && |ids| <= |scores|
  {
    seq(|ids|, j requires 0 <= j < |ids| => Token(ids[j], mask[j], scores[j]))
  }

  /** w is the largest score of a counting occurrence of id. */
  ghost predicate IsTopScore(tokens: seq<Token>, id: nat, w: real) {
    && (exists t :: t in tokens && Counts(t) && t.id == id && t.score == w)
    && (forall t :: t in tokens && Counts(t) && t.id == id ==> t.score <= w)
  }

  predicate Ascends(s: seq<nat>) {
    forall i, j :: 0 <= i < j < |s| ==> s[i] < s[j]
  }

  /** Strictly increasing ids: exactly those that count somewhere, each with its largest score. */
  ghost predicate IsPooled(tokens: seq<Token>, out: SparseEmbedding) {
    && |out.indices| == |out.values|
    && Ascends(out.indices)
    && (forall t :: t in tokens && Counts(t) ==> t.id in out.indices)
    && (forall k :: 0 <= k < |out.indices| ==> IsTopScore(tokens, out.indices[k], out.values[k]))
  }

  method SparseMaxpool(ids: seq<nat>, mask: seq<nat>, scores: seq<real>) returns (out: SparseEmbedding)
    requires |ids| <= |mask| && |ids| <= |scores|
    ensures IsPooled(Zip(ids, mask, scores), out)
  {
    ghost var tokens := Zip(ids, mask, scores);
    var weights: map<nat, real> := map[];
    for j := 0 to |ids|
      invariant PooledMap(tokens[..j], weights)
    {
      PooledMapStep(tokens, j, weights);
      if mask[j] != 0 && ids[j] !in SPECIAL_TOKENS && scores[j] > 0.0 {
        if ids[j] in weights {
          weights := weights[ids[j] := if weights[ids[j]] < scores[j] then scores[j] else weights[ids[j]]];
        } else {
          weights := weights[ids[j] := scores[j]];
        }
      }
    }
    assert tokens[..|ids|] == tokens;
    var indices := SortedKeys(weights.Keys);
    var values := seq(|indices|, k requires 0 <= k < |indices| => weights[indices[k]]);
    out := SparseEmbedding(indices, values);
  }

  /** The ids in ascending order; `keys` hands them over in no particular order. */
  method SortedKeys(keys: set<nat>) returns (s: seq<nat>)
    ensures Ascends(s) && ToSet(s) == keys
    ensures forall k :: 0 <= k < |s| ==> s[k] in keys
  {
    var rest, collected: seq<nat> := keys, [];
    while rest != {}
      invariant Distinct(collected) && ToSet(collected) == keys - rest && rest <= keys
      decreases |rest|
    {
      var k :| k in rest;
      assert k !in ToSet(collected);
      assert ToSet(collected + [k]) == ToSet(collected) + {k};
      collected, rest := collected + [k], rest - {k};
    }
    var a := new nat[|collected|](i requires 0 <= i < |collected| => collected[i]);
    assert a[..] == collected;
    SortUnstableByKey(a, k => k);
    s := a[..];
    SortedDistinctAscends(collected, s);
  }

  lemma SortedDistinctAscends(s: seq<nat>, t: seq<nat>)
    requires Distinct(s) && multiset(s) == multiset(t) && SortedBy(t, k => k)
    ensures Ascends(t) && ToSet(t) == ToSet(s)
  {
    forall i, j | 0 <= i < j < |t| ensures t[i] < t[j] {
      assert (k => k)(t[i]) <= (k => k)(t[j]);
      if t[i] == t[j] {
        RepeatedCount(t, i, j);
        DistinctCount(s, t[i]);
      }
    }
    forall x ensures x in s <==> x in t {
      assert x in multiset(s) <==> x in multiset(t);
    }
  }

  ghost predicate PooledMap(tokens: seq<Token>, weights: map<nat, real>) {
    && (forall t :: t in tokens && Counts(t) ==> t.id in weights)
    && (forall id :: id in weights ==> IsTopScore(tokens, id, weights[id]))
  }

  function Folded(weights: map<nat, real>, t: Token): map<nat, real> {
    if !Counts(t) then weights
    else weights[t.id := if t.id in weights && weights[t.id] >= t.score then weights[t.id] else t.score]
  }

  lemma PooledMapStep(tokens: seq<Token>, j: nat, weights: map<nat, real>)
    requires j < |tokens| && PooledMap(tokens[..j], weights)
    ensures PooledMap(tokens[..j + 1], Folded(weights, tokens[j]))
  {
    var before, t, after := tokens[..j], tokens[j], tokens[..j + 1];
    assert after == before + [t];
    var weights' := Folded(weights, t);
    forall id | id in weights' ensures IsTopScore(after, id, weights'[id]) {
      if id in weights {
        var u :| u in before && Counts(u) && u.id == id && u.score == weights[id];
        assert u in after && t in after;
      } else {
        assert t in after;
      }
    }
  }

  /** What comes out: exactly the ids from 4 up that occur unmasked with a positive score, so neither
      the four special tokens nor a zero weight. */
  lemma PooledIdsIff(tokens: seq<Token>, out: SparseEmbedding, id: nat)
    requires IsPooled(tokens, out)
    ensures id in out.indices <==> id >= 4 && exists t :: t in tokens && t.id == id && t.mask != 0 && t.score > 0.0
    ensures forall k :: 0 <= k < |out.values| ==> out.values[k] > 0.0
  {
    forall k | 0 <= k < |out.indices| ensures out.values[k] > 0.0 && out.indices[k] >= 4 {
      var t :| t in tokens && Counts(t) && t.id == out.indices[k] && t.score == out.values[k];
    }
    if id in out.indices {
      var k :| 0 <= k < |out.indices| && out.indices[k] == id;
      var t :| t in tokens && Counts(t) && t.id == id && t.score == out.values[k];
    }
    if t :| id >= 4 && t in tokens && t.id == id && t.mask != 0 && t.score > 0.0 {
      assert Counts(t);
    }
  }

  /** The promise fixes the output. */
  lemma PooledUnique(tokens: seq<Token>, x: SparseEmbedding, y: SparseEmbedding)
    requires IsPooled(tokens, x) && IsPooled(tokens, y)
    ensures x == y
  {
    PooledIndices(tokens, x);
    PooledIndices(tokens, y);
    AscendingUnique(x.indices, y.indices);
    forall k | 0 <= k < |x.values| ensures x.values[k] == y.values[k] {
      assert IsTopScore(tokens, x.indices[k], x.values[k]) && IsTopScore(tokens, y.indices[k], y.values[k]);
    }
  }

  lemma PooledIndices(tokens: seq<Token>, x: SparseEmbedding)
    requires IsPooled(tokens, x)
    ensures ToSet(x.indices) == set t | t in tokens && Counts(t) :: t.id
  {
    forall id | id in x.indices ensures exists t :: t in tokens && Counts(t) && t.id == id {
      var k :| 0 <= k < |x.indices| && x.indices[k] == id;
      assert IsTopScore(tokens, id, x.values[k]);
    }
  }

  lemma AscendingLast(s: seq<nat>)
    requires Ascends(s) && s != []
    ensures s[|s| - 1] in ToSet(s) && forall x :: x in ToSet(s) ==> x <= s[|s| - 1]
    ensures ToSet(s[..|s| - 1]) == ToSet(s) - {s[|s| - 1]}
  {
    assert s == s[..|s| - 1] + [s[|s| - 1]];
  }

  lemma {:induction false} AscendingUnique(s: seq<nat>, t: seq<nat>)
    requires Ascends(s) && Ascends(t) && ToSet(s) == ToSet(t)
    ensures s == t
  {
    if s == [] || t == [] {
      if s != [] { AscendingLast(s); }
      if t != [] { AscendingLast(t); }
    } else {
      AscendingLast(s);
      AscendingLast(t);
      AscendingUnique(s[..|s| - 1], t[..|t| - 1]);
      assert s == s[..|s| - 1] + [s[|s| - 1]] && t == t[..|t| - 1] + [t[|t| - 1]];
    }
  }

  lemma {:induction false} AscendingExists(keys: set<nat>) returns (s: seq<nat>)
    ensures Ascends(s) && ToSet(s) == keys
  {
    s := [];
    if keys != {} {
      var top :| top in keys;
      top := Largest(keys, top);
      var front := AscendingExists(keys - {top});
      s := front + [top];
      assert forall i :: 0 <= i < |front| ==> front[i] in ToSet(front);
      assert ToSet(s) == ToSet(front) + {top};
    }
  }

  lemma {:induction false} Largest(keys: set<nat>, k: nat) returns (top: nat)
    requires k in keys
    ensures top in keys && forall x :: x in keys ==> x <= top
  {
    if exists y :: y in keys && y > k {
      var y :| y in keys && y > k;
      top := Largest(keys - {k}, y);
      assert forall x :: x in keys ==> x == k || x in keys - {k};
    } else {
      top := k;
    }
  }

  lemma {:induction false} PooledMapExists(tokens: seq<Token>) returns (weights: map<nat, real>)
    ensures PooledMap(tokens, weights)
  {
    weights := map[];
    if tokens != [] {
      var j := |tokens| - 1;
      var w := PooledMapExists(tokens[..j]);
      PooledMapStep(tokens, j, w);
      assert tokens[..j + 1] == tokens;
      weights := Folded(w, tokens[j]);
    }
  }

  /** Every token sequence has a pooled embedding. */
  lemma PooledExists(tokens: seq<Token>) returns (out: SparseEmbedding)
    ensures IsPooled(tokens, out)
  {
    var weights := PooledMapExists(tokens);
    var indices := AscendingExists(weights.Keys);
    forall k | 0 <= k < |indices| ensures indices[k] in weights {
      assert indices[k] in ToSet(indices);
    }
    out := SparseEmbedding(indices, seq(|indices|, k requires 0 <= k < |indices| => weights[indices[k]]));
    forall t | t in tokens && Counts(t) ensures t.id in indices {
      assert t.id in ToSet(indices);
    }
  }

  /** Neither the order of the positions nor appended padding changes the result. */
  lemma PooledIgnoresOrderAndPadding(tokens: seq<Token>, shuffled: seq<Token>, padding: seq<Token>, out: SparseEmbedding)
    requires multiset(tokens) == multiset(shuffled)
    requires forall t :: t in padding ==> t.mask == 0
    requires IsPooled(tokens, out)
    ensures IsPooled(shuffled + padding, out)
  {
    forall t ensures t in tokens <==> t in shuffled {
      assert t in multiset(tokens) <==> t in multiset(shuffled);
    }
    forall k | 0 <= k < |out.indices| ensures IsTopScore(shuffled + padding, out.indices[k], out.values[k]) {
      assert IsTopScore(tokens, out.indices[k], out.values[k]);
      var t :| t in tokens && Counts(t) && t.id == out.indices[k] && t.score == out.values[k];
      assert t in shuffled + padding;
    }
  }

  ghost function Weight(out: SparseEmbedding, id: nat): real
    requires |out.indices| == |out.values|
  {
    if exists k :: 0 <= k < |out.indices| && out.indices[k] == id
    then var k :| 0 <= k < |out.indices| && out.indices[k] == id; out.values[k]
    else 0.0
  }

  lemma WeightIsTop(tokens: seq<Token>, out: SparseEmbedding, id: nat)
    requires IsPooled(tokens, out)
    ensures Weight(out, id) > 0.0 ==> IsTopScore(tokens, id, Weight(out, id))
    ensures Weight(out, id) <= 0.0 ==> Weight(out, id) == 0.0
    ensures Weight(out, id) <= 0.0 ==> forall t :: t in tokens && Counts(t) ==> t.id != id
  {
    if exists k :: 0 <= k < |out.indices| && out.indices[k] == id {
      var k :| 0 <= k < |out.indices| && out.indices[k] == id;
      assert IsTopScore(tokens, id, out.values[k]);
    }
  }

  /** Pooling a concatenation is the pointwise maximum of pooling its parts. */
  lemma PooledConcat(x: seq<Token>, y: seq<Token>, px: SparseEmbedding, py: SparseEmbedding, pxy: SparseEmbedding, id: nat)
    requires IsPooled(x, px) && IsPooled(y, py) && IsPooled(x + y, pxy)
    ensures Weight(pxy, id) == if Weight(px, id) < Weight(py, id) then Weight(py, id) else Weight(px, id)
  {
    WeightIsTop(x, px, id);
    WeightIsTop(y, py, id);
    WeightIsTop(x + y, pxy, id);
  }
}
