/** Warmup shapes and their partition among workers (src/embedder/trt_warmup.rs). */
module WarmupShapes {
  import opened Numbers

  datatype Shape = Shape(batch: nat, seqLen: nat)

  /** The longest sequence of any shape. */
  function MaxSeq(shapes: seq<Shape>): nat {
    if shapes == [] then 0 else Max(MaxSeq(shapes[..|shapes| - 1]), shapes[|shapes| - 1].seqLen)
  }

  lemma {:induction false} MaxSeqBounds(shapes: seq<Shape>)
    ensures forall i :: 0 <= i < |shapes| ==> shapes[i].seqLen <= MaxSeq(shapes)
    ensures shapes != [] ==> exists i :: 0 <= i < |shapes| && shapes[i].seqLen == MaxSeq(shapes)
  {
    if shapes != [] {
      var front := shapes[..|shapes| - 1];
      MaxSeqBounds(front);
      if MaxSeq(shapes) != shapes[|shapes| - 1].seqLen {
        assert front == [] ==> MaxSeq(front) == 0;
        var i :| 0 <= i < |front| && front[i].seqLen == MaxSeq(front);
        assert shapes[i].seqLen == MaxSeq(shapes);
      }
    }
  }

  /** The worker a grid position is assigned to. */
  function Owner(position: nat, count: nat): nat
    requires count > 0
  {
    position % count
  }

  /** The shapes at positions index, index + count, index + 2 count, ... */
  function Stride(shapes: seq<Shape>, index: nat, count: nat): seq<Shape>
    requires count > 0
  {
    if shapes == [] then []
    else
      var last := |shapes| - 1;
      Stride(shapes[..last], index, count) + if Owner(last, count) == index then [shapes[last]] else []
  }

  function Shard(shapes: seq<Shape>, index: nat, count: nat): seq<Shape> {
    if count <= 1 then shapes else Stride(shapes, index, count)
  }

  function Occurrences(s: seq<Shape>, x: Shape): nat {
    if s == [] then 0 else Occurrences(s[..|s| - 1], x) + if s[|s| - 1] == x then 1 else 0
  }

  lemma {:induction false} OccurrencesAreMultiplicity(s: seq<Shape>, x: Shape)
    ensures Occurrences(s, x) == multiset(s)[x]
  {
    if s != [] {
      OccurrencesAreMultiplicity(s[..|s| - 1], x);
      assert s == s[..|s| - 1] + [s[|s| - 1]];
    }
  }

  /** How often x occurs in the shards of the first k of count workers, together. */
  function Copies(shapes: seq<Shape>, count: nat, k: nat, x: Shape): nat
    requires count > 0
  {
    if k == 0 then 0 else Copies(shapes, count, k - 1, x) + Occurrences(Stride(shapes, k - 1, count), x)
  }

  lemma {:induction false} CopiesGrow(shapes: seq<Shape>, count: nat, k: nat, x: Shape)
    requires count > 0 && shapes != [] && k <= count
    ensures var last := |shapes| - 1;
      Copies(shapes, count, k, x) == Copies(shapes[..last], count, k, x)
        + if shapes[last] == x && Owner(last, count) < k then 1 else 0
  {
    if k > 0 {
      CopiesGrow(shapes, count, k - 1, x);
      StrideCopies(shapes, k - 1, count, x);
      NextShard(shapes, count, k, x);
      NextShard(shapes[..|shapes| - 1], count, k, x);
      hide Stride, Owner, Occurrences, Copies;
    }
  }

  lemma NextShard(shapes: seq<Shape>, count: nat, k: nat, x: Shape)
    requires count > 0 && k > 0
    ensures Copies(shapes, count, k, x) == Copies(shapes, count, k - 1, x) + Occurrences(Stride(shapes, k - 1, count), x)
  {}

  lemma StrideCopies(shapes: seq<Shape>, index: nat, count: nat, x: Shape)
    requires count > 0 && shapes != []
    ensures var last := |shapes| - 1;
      Occurrences(Stride(shapes, index, count), x) == Occurrences(Stride(shapes[..last], index, count), x)
        + if Owner(last, count) == index && shapes[last] == x then 1 else 0
  {
    var last := |shapes| - 1;
    var front := Stride(shapes[..last], index, count);
    assert (front + [shapes[last]])[..|front|] == front && front + [] == front;
  }

  lemma {:induction false} CopiesOfNothing(count: nat, k: nat, x: Shape)
    requires count > 0
    ensures Copies([], count, k, x) == 0
  {
    if k > 0 {
      CopiesOfNothing(count, k - 1, x);
    }
  }

  lemma {:induction false} CopiesAreOccurrences(shapes: seq<Shape>, count: nat, x: Shape)
    requires count > 0
    ensures Copies(shapes, count, count, x) == Occurrences(shapes, x)
  {
    if shapes == [] {
      CopiesOfNothing(count, count, x);
    } else {
      CopiesAreOccurrences(shapes[..|shapes| - 1], count, x);
      CopiesGrow(shapes, count, count, x);
      hide Copies;
    }
  }

  /** Over all shards together every shape occurs exactly as often as in the grid: nothing is
      dropped and nothing is compiled by two workers. */
  lemma ShardsPartitionGrid(shapes: seq<Shape>, count: nat, x: Shape)
    requires count > 0
    ensures Copies(shapes, count, count, x) == multiset(shapes)[x]
  {
    CopiesAreOccurrences(shapes, count, x);
    OccurrencesAreMultiplicity(shapes, x);
  }

  /** Shard sizes: the quotient, and one more for the first remainder-many workers. */
  lemma {:induction false} ShardSize(shapes: seq<Shape>, index: nat, count: nat)
    requires index < count
    ensures |Stride(shapes, index, count)| == |shapes| / count + if index < |shapes| % count then 1 else 0
  {
    if shapes != [] {
      ShardSize(shapes[..|shapes| - 1], index, count);
      DivideNext(|shapes| - 1, count);
    }
  }

  /** So no worker compiles more than one shape more than another. */
  lemma ShardsBalanced(shapes: seq<Shape>, i: nat, j: nat, count: nat)
    requires i < count && j < count
    ensures |Shard(shapes, i, count)| <= |Shard(shapes, j, count)| + 1
  {
    if count > 1 {
      ShardSize(shapes, i, count);
      ShardSize(shapes, j, count);
    }
  }

  lemma {:induction false} StrideMember(shapes: seq<Shape>, index: nat, count: nat, x: Shape)
    requires count > 0
    ensures x in Stride(shapes, index, count) <==>
      exists i :: 0 <= i < |shapes| && i % count == index && shapes[i] == x
  {
    if shapes != [] {
      var last := |shapes| - 1;
      StrideMember(shapes[..last], index, count, x);
      if x in Stride(shapes[..last], index, count) {
        var i :| 0 <= i < last && i % count == index && shapes[..last][i] == x;
        assert shapes[i] == x;
      }
      if i :| 0 <= i < |shapes| && i % count == index && shapes[i] == x {
        if i < last {
          assert shapes[..last][i] == x;
        }
      }
    }
  }

  /** Every shape of the grid is in some worker's shard. */
  lemma ShapeHasOwner(shapes: seq<Shape>, count: nat, i: nat) returns (index: nat)
    requires count > 0 && i < |shapes|
    ensures index < count && shapes[i] in Shard(shapes, index, count)
  {
    index := if count <= 1 then 0 else i % count;
    if count > 1 {
      StrideMember(shapes, index, count, shapes[i]);
    }
  }

  /** The longest shape of the grid is the longest of some worker's shard, and no shard exceeds it. */
  lemma ShardsReachGridMaximum(shapes: seq<Shape>, count: nat) returns (index: nat)
    requires count > 0
    ensures index < count && MaxSeq(Shard(shapes, index, count)) == MaxSeq(shapes)
    ensures forall k :: 0 <= k < count ==> MaxSeq(Shard(shapes, k, count)) <= MaxSeq(shapes)
  {
    forall k | 0 <= k < count ensures MaxSeq(Shard(shapes, k, count)) <= MaxSeq(shapes) {
      ShardBelowGrid(shapes, k, count);
    }
    index := 0;
    MaxSeqBounds(shapes);
    if shapes != [] {
      var i :| 0 <= i < |shapes| && shapes[i].seqLen == MaxSeq(shapes);
      index := ShapeHasOwner(shapes, count, i);
      MaxSeqBounds(Shard(shapes, index, count));
    }
  }

  lemma ShardBelowGrid(shapes: seq<Shape>, k: nat, count: nat)
    requires count > 0
    ensures MaxSeq(Shard(shapes, k, count)) <= MaxSeq(shapes)
  {
    var shard := Shard(shapes, k, count);
    MaxSeqBounds(shard);
    MaxSeqBounds(shapes);
    if shard != [] && count > 1 {
      var i :| 0 <= i < |shard| && shard[i].seqLen == MaxSeq(shard);
      StrideMember(shapes, k, count, shard[i]);
    }
  }
}
