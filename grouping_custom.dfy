/**
 * The custom grouping benchmark: per data frame, the V0 row indices are
 * grouped by the collision they belong to with one bucket per collision,
 * each bucket's size is histogrammed, and the data frame counter advances.
 */
module GroupingCustom {

  /** A V0 row of `V0CollRefs`; its global index is its row position. */
  datatype V0CollRef = V0CollRef(straCollisionId: int)

  /** A weighted fill of a one-dimensional histogram. */
  datatype WeightedFill = WeightedFill(x: int, weight: int)

  /** Collision ids all name one of the `n` collisions of the data frame. */
  predicate IdsInRange(v0s: seq<V0CollRef>, n: nat)
  {
    forall i :: 0 <= i < |v0s| ==> 0 <= v0s[i].straCollisionId < n
  }

  /** The V0 rows of collision `c`, in row order. */
  function Bucket(v0s: seq<V0CollRef>, c: int): seq<int>
  {
    if |v0s| == 0 then []
    else Bucket(v0s[..|v0s| - 1], c) + (if v0s[|v0s| - 1].straCollisionId == c then [|v0s| - 1] else [])
  }

  /** A bucket holds exactly the rows of its collision, strictly increasing. */
  lemma {:induction false} BucketSpec(v0s: seq<V0CollRef>, c: int)
    ensures forall i :: i in Bucket(v0s, c) <==> 0 <= i < |v0s| && v0s[i].straCollisionId == c
    ensures forall a, b :: 0 <= a < b < |Bucket(v0s, c)| ==> Bucket(v0s, c)[a] < Bucket(v0s, c)[b]
    ensures forall a :: 0 <= a < |Bucket(v0s, c)| ==> 0 <= Bucket(v0s, c)[a] < |v0s|
  {
    if |v0s| > 0 {
      var n := |v0s| - 1;
      BucketSpec(v0s[..n], c);
      forall i
        ensures i in Bucket(v0s, c) <==> 0 <= i < |v0s| && v0s[i].straCollisionId == c
      {
        if 0 <= i < n {
          assert v0s[..n][i] == v0s[i];
        }
      }
    }
  }

  /** Every V0 row lands in exactly one bucket, the one of its collision. */
  lemma EachRowInOneBucket(v0s: seq<V0CollRef>, n: nat, i: nat, c: nat)
    requires IdsInRange(v0s, n) && i < |v0s| && c < n
    ensures i in Bucket(v0s, c) <==> c == v0s[i].straCollisionId
  {
    BucketSpec(v0s, c);
  }

  /** Sum of the sizes of buckets 0 .. k-1. */
  function SumSizes(v0s: seq<V0CollRef>, k: nat): nat
  {
    if k == 0 then 0 else SumSizes(v0s, k - 1) + |Bucket(v0s, k - 1)|
  }

  /** One more V0 adds one to the sum exactly when its collision is among the first `k`. */
  lemma {:induction false} SumSizesStep(v0s: seq<V0CollRef>, x: V0CollRef, k: nat)
    ensures SumSizes(v0s + [x], k) == SumSizes(v0s, k) + (if 0 <= x.straCollisionId < k then 1 else 0)
  {
    assert (v0s + [x])[..|v0s + [x]| - 1] == v0s;
    if k > 0 {
      SumSizesStep(v0s, x, k - 1);
    }
  }

  /** The bucket sizes add up to the number of V0s. */
  lemma {:induction false} BucketSizesSum(v0s: seq<V0CollRef>, n: nat)
    requires IdsInRange(v0s, n)
    ensures SumSizes(v0s, n) == |v0s|
  {
    if |v0s| == 0 {
      ZeroSizes(n);
    } else {
      var m := |v0s| - 1;
      assert v0s == v0s[..m] + [v0s[m]];
      BucketSizesSum(v0s[..m], n);
      SumSizesStep(v0s[..m], v0s[m], n);
    }
  }

  lemma {:induction false} ZeroSizes(k: nat)
    ensures SumSizes([], k) == 0
  {
    if k > 0 {
      ZeroSizes(k - 1);
    }
  }

  /** The grouping loop: one `push_back` of the row index into its collision's bucket per V0. */
  method GroupByCollision(n: nat, v0s: seq<V0CollRef>) returns (grouped: seq<seq<int>>)
    requires IdsInRange(v0s, n)
    ensures |grouped| == n
    ensures forall c :: 0 <= c < n ==> grouped[c] == Bucket(v0s, c)
  {
    var g := new seq<int>[n](_ => []);
    var i := 0;
    while i < |v0s|
      invariant 0 <= i <= |v0s|
      invariant forall c :: 0 <= c < n ==> g[c] == Bucket(v0s[..i], c)
    {
      assert v0s[..i + 1][..i] == v0s[..i];
      var c := v0s[i].straCollisionId;
      g[c] := g[c] + [i];
      i := i + 1;
    }
    assert v0s[..i] == v0s;
    grouped := g[..];
  }

  /** The benchmark task: the data frame counter and its histograms (the timing histogram aside). */
  class Benchmark {
    var atDF: int
    var hV0sPerEvent: seq<int>
    var hCollisionsVsDF: seq<WeightedFill>
    var hV0sVsDF: seq<WeightedFill>

    constructor ()
      ensures atDF == 0 && hV0sPerEvent == [] && hCollisionsVsDF == [] && hV0sVsDF == []
    {
      atDF := 0;
      hV0sPerEvent := [];
      hCollisionsVsDF := [];
      hV0sVsDF := [];
    }

    /** The per-collision loop: each collision's bucket size. */
    method FillV0sPerEvent(grouped: seq<seq<int>>)
      modifies this`hV0sPerEvent
      ensures hV0sPerEvent == old(hV0sPerEvent) + seq(|grouped|, c requires 0 <= c < |grouped| => |grouped[c]|)
    {
      var c := 0;
      while c < |grouped|
        invariant 0 <= c <= |grouped|
        invariant hV0sPerEvent == old(hV0sPerEvent) + seq(c, k requires 0 <= k < c => |grouped[k]|)
      {
        hV0sPerEvent := hV0sPerEvent + [|grouped[c]|];
        c := c + 1;
      }
    }

    /**
     * `process` on a data frame of `nCollisions` collisions: nothing at all
     * for an empty data frame; otherwise the bucket sizes per collision, the
     * collision and V0 counts at bin `atDF`, and `atDF` advances by one.
     */
    method Process(nCollisions: nat, v0s: seq<V0CollRef>)
      requires IdsInRange(v0s, nCollisions)
      modifies this`atDF, this`hV0sPerEvent, this`hCollisionsVsDF, this`hV0sVsDF
      ensures nCollisions == 0 ==>
                atDF == old(atDF) && hV0sPerEvent == old(hV0sPerEvent)
                && hCollisionsVsDF == old(hCollisionsVsDF) && hV0sVsDF == old(hV0sVsDF)
      ensures nCollisions > 0 ==>
                atDF == old(atDF) + 1
                && hV0sPerEvent == old(hV0sPerEvent)
                     + seq(nCollisions, c requires 0 <= c < nCollisions => |Bucket(v0s, c)|)
                && hCollisionsVsDF == old(hCollisionsVsDF) + [WeightedFill(old(atDF), nCollisions)]
                && hV0sVsDF == old(hV0sVsDF) + [WeightedFill(old(atDF), |v0s|)]
    {
      if nCollisions == 0 {
        return;
      }
      var grouped := GroupByCollision(nCollisions, v0s);
      FillV0sPerEvent(grouped);
      assert seq(|grouped|, c requires 0 <= c < |grouped| => |grouped[c]|)
          == seq(nCollisions, c requires 0 <= c < nCollisions => |Bucket(v0s, c)|);
      hCollisionsVsDF := hCollisionsVsDF + [WeightedFill(atDF, nCollisions)];
      hV0sVsDF := hV0sVsDF + [WeightedFill(atDF, |v0s|)];
      atDF := atDF + 1;
    }
  }
}
