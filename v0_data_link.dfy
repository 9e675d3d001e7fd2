/**
 * The V0 -> V0Data link table. Every row of the V0 table gets the index of
 * the V0Datas row built from it, or -1 when the builder rejected that V0.
 * A V0Datas row is identified by its position in the table (its global
 * index) and refers back to its V0 through `v0Id`.
 */
module V0DataLink {
  import opened StraCommon

  /**
   * Reference definition: entry `i` is the position of the last V0Datas row
   * whose `v0Id` is `i`, and -1 if there is none.
   */
  function LinkSpec(n: nat, v0Ids: seq<nat>): (link: seq<int>)
    requires forall k :: 0 <= k < |v0Ids| ==> v0Ids[k] < n
    ensures |link| == n
  {
    if |v0Ids| == 0 then seq(n, _ => -1)
    else LinkSpec(n, v0Ids[..|v0Ids| - 1])[v0Ids[|v0Ids| - 1] := |v0Ids| - 1]
  }

  /** What an entry of the link means, stated without the fold. */
  lemma {:induction false} LinkSpecEntry(n: nat, v0Ids: seq<nat>, i: nat)
    requires forall k :: 0 <= k < |v0Ids| ==> v0Ids[k] < n
    requires i < n
    ensures LinkSpec(n, v0Ids)[i] == -1 <==> forall k :: 0 <= k < |v0Ids| ==> v0Ids[k] != i
    ensures LinkSpec(n, v0Ids)[i] != -1 ==>
              0 <= LinkSpec(n, v0Ids)[i] < |v0Ids| && v0Ids[LinkSpec(n, v0Ids)[i]] == i
              && forall k :: LinkSpec(n, v0Ids)[i] < k < |v0Ids| ==> v0Ids[k] != i
  {
    if |v0Ids| > 0 {
      var p := v0Ids[..|v0Ids| - 1];
      LinkSpecEntry(n, p, i);
      assert forall k :: 0 <= k < |p| ==> p[k] == v0Ids[k];
    }
  }

  /** Every V0 produces at most one V0Datas row. */
  predicate Injective(v0Ids: seq<nat>)
  {
    forall a, b :: 0 <= a < b < |v0Ids| ==> v0Ids[a] != v0Ids[b]
  }

  /** When each V0 yields at most one row, the link inverts `v0Id` in both directions. */
  lemma LinkInvertsV0Id(n: nat, v0Ids: seq<nat>)
    requires forall k :: 0 <= k < |v0Ids| ==> v0Ids[k] < n
    requires Injective(v0Ids)
    ensures forall k :: 0 <= k < |v0Ids| ==> LinkSpec(n, v0Ids)[v0Ids[k]] == k
    ensures forall i :: 0 <= i < n && LinkSpec(n, v0Ids)[i] != -1 ==>
              0 <= LinkSpec(n, v0Ids)[i] < |v0Ids| && v0Ids[LinkSpec(n, v0Ids)[i]] == i
  {
    forall k | 0 <= k < |v0Ids| ensures LinkSpec(n, v0Ids)[v0Ids[k]] == k {
      LinkSpecEntry(n, v0Ids, v0Ids[k]);
    }
    forall i | 0 <= i < n && LinkSpec(n, v0Ids)[i] != -1
      ensures 0 <= LinkSpec(n, v0Ids)[i] < |v0Ids| && v0Ids[LinkSpec(n, v0Ids)[i]] == i
    {
      LinkSpecEntry(n, v0Ids, i);
    }
  }

  /**
   * The link builder with a vector of `n` entries. Row `k` of V0Datas (with
   * global index `k`) is written at position `v0Ids[k]`.
   */
  method BuildLink(n: nat, v0Ids: seq<nat>) returns (link: seq<int>)
    requires forall k :: 0 <= k < |v0Ids| ==> v0Ids[k] < n
    ensures link == LinkSpec(n, v0Ids)
  {
    var indices := new int[n];
    var ii := 0;
    while ii < n
      invariant 0 <= ii <= n
      invariant forall j :: 0 <= j < ii ==> indices[j] == -1
    {
      indices[ii] := -1;
      ii := ii + 1;
    }
    assert indices[..] == LinkSpec(n, v0Ids[..0]);
    var k := 0;
    while k < |v0Ids|
      invariant 0 <= k <= |v0Ids|
      invariant indices[..] == LinkSpec(n, v0Ids[..k])
    {
      assert v0Ids[..k + 1][..k] == v0Ids[..k];
      indices[v0Ids[k]] := k;
      k := k + 1;
    }
    assert v0Ids[..k] == v0Ids;
    link := indices[..];
  }

  /**
   * The code as written: the vector only reserves capacity, so it stays of
   * size 0 and every subscript is out of range. `None` stands for that
   * undefined behaviour; otherwise the emitted table.
   */
  function LinkAsWritten(n: nat, v0Ids: seq<nat>): (r: Option<seq<int>>)
    ensures r.Some? ==> r.value == []
  {
    var size := 0;
    if n > size || (exists k :: 0 <= k < |v0Ids| && v0Ids[k] >= size) then None
    else Some([])
  }

  /** As written, any non-empty V0 table subscripts past the end of the vector. */
  lemma LinkAsWrittenUndefined(n: nat, v0Ids: seq<nat>)
    requires n > 0
    requires forall k :: 0 <= k < |v0Ids| ==> v0Ids[k] < n
    ensures LinkAsWritten(n, v0Ids).None?
    ensures |LinkSpec(n, v0Ids)| == n
  {
  }

  /** A concrete input: two V0s, the second one built. */
  lemma LinkExample()
    ensures LinkAsWritten(2, [1]).None?
    ensures LinkSpec(2, [1]) == [-1, 0]
  {
    assert [1][..0] == [];
  }
}
