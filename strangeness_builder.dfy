/**
 * The unified strangeness builder's bookkeeping: which of its output tables
 * are enabled, the per-data-frame conditions check, the marking of the V0s
 * that cascades use, and the per-V0 hand-off to the builder helper.
 */
module StrangenessBuilder {
  import opened StraCommon

  /** Number of tables the builder can produce. */
  const nTables := 73
  const kV0CoresBase := 1
  const kStoredCascCores := 6

  /** `v0Map` marks. */
  const NotUsed := -2
  const UsedInCascade := -1

  datatype BC = BC(runNumber: int, timestamp: int)

  datatype V0Row = V0Row(collisionId: int, posTrackId: int, negTrackId: int, isCollinearV0: bool)

  /** One call of the (external) builder helper's `buildV0Candidate`. */
  datatype HelperCall = HelperCall(collisionId: int, posTrackId: int, negTrackId: int, isCollinearV0: bool)

  /** The table-enable vector after `init`: resized to `nTables` with 0, then 1 where the value is exactly 1. */
  function EnabledAfterInit(prev: seq<int>, config: seq<int>): (r: seq<int>)
    requires |config| == nTables
    ensures |r| == nTables
  {
    var base := Resize(prev, nTables, 0);
    seq(nTables, i requires 0 <= i < nTables => if config[i] == 1 then 1 else base[i])
  }

  /** From a fresh task, table i is on exactly when its configured value is 1 (-1, autodetect, gives off). */
  lemma EnabledExactlyOne(config: seq<int>)
    requires |config| == nTables
    ensures forall i :: 0 <= i < nTables ==> (EnabledAfterInit([], config)[i] == 1 <==> config[i] == 1)
    ensures forall i :: 0 <= i < nTables ==> EnabledAfterInit([], config)[i] in {0, 1}
    ensures forall i :: 0 <= i < nTables && config[i] == -1 ==> EnabledAfterInit([], config)[i] == 0
  {
  }

  /** `v0Map` after marking: resized with -2, then -1 for every V0 a cascade uses. */
  function MarkedMap(prev: seq<int>, nV0s: nat, cascadeV0Ids: seq<nat>): (r: seq<int>)
    requires forall k :: 0 <= k < |cascadeV0Ids| ==> cascadeV0Ids[k] < nV0s
    ensures |r| == nV0s
  {
    if |cascadeV0Ids| == 0 then Resize(prev, nV0s, NotUsed)
    else
      var n := |cascadeV0Ids| - 1;
      MarkedMap(prev, nV0s, cascadeV0Ids[..n])[cascadeV0Ids[n] := UsedInCascade]
  }

  /** What each map entry holds after marking. */
  lemma {:induction false} MarkedMapEntry(prev: seq<int>, nV0s: nat, cascadeV0Ids: seq<nat>, i: nat)
    requires forall k :: 0 <= k < |cascadeV0Ids| ==> cascadeV0Ids[k] < nV0s
    requires i < nV0s
    ensures MarkedMap(prev, nV0s, cascadeV0Ids)[i] ==
              if i in cascadeV0Ids then UsedInCascade else if i < |prev| then prev[i] else NotUsed
  {
    if |cascadeV0Ids| > 0 {
      var n := |cascadeV0Ids| - 1;
      MarkedMapEntry(prev, nV0s, cascadeV0Ids[..n], i);
      assert cascadeV0Ids == cascadeV0Ids[..n] + [cascadeV0Ids[n]];
    }
  }

  /** On an empty map, entries are -1 exactly for the V0s some cascade uses and -2 for all others. */
  lemma MarkedFreshMap(nV0s: nat, cascadeV0Ids: seq<nat>)
    requires forall k :: 0 <= k < |cascadeV0Ids| ==> cascadeV0Ids[k] < nV0s
    ensures forall i :: 0 <= i < nV0s ==>
              (MarkedMap([], nV0s, cascadeV0Ids)[i] == UsedInCascade <==> i in cascadeV0Ids)
              && (MarkedMap([], nV0s, cascadeV0Ids)[i] == NotUsed <==> i !in cascadeV0Ids)
  {
    forall i | 0 <= i < nV0s
      ensures (MarkedMap([], nV0s, cascadeV0Ids)[i] == UsedInCascade <==> i in cascadeV0Ids)
              && (MarkedMap([], nV0s, cascadeV0Ids)[i] == NotUsed <==> i !in cascadeV0Ids)
    {
      MarkedMapEntry([], nV0s, cascadeV0Ids, i);
    }
  }

  /** A map left from a larger earlier data frame keeps its old values: a -1 survives without a cascade. */
  lemma StaleMarkSurvives()
    ensures MarkedMap([-1, -1], 1, []) == [-1]
  {
  }

  function HelperCallsFor(v0s: seq<V0Row>): (calls: seq<HelperCall>)
    ensures |calls| == |v0s|
    ensures forall i :: 0 <= i < |v0s| ==>
              calls[i] == HelperCall(v0s[i].collisionId, v0s[i].posTrackId, v0s[i].negTrackId, v0s[i].isCollinearV0)
  {
    seq(|v0s|, i requires 0 <= i < |v0s| =>
          HelperCall(v0s[i].collisionId, v0s[i].posTrackId, v0s[i].negTrackId, v0s[i].isCollinearV0))
  }

  /** Building two tables one after the other issues the calls of their concatenation. */
  lemma HelperCallsConcat(a: seq<V0Row>, b: seq<V0Row>)
    ensures HelperCallsFor(a + b) == HelperCallsFor(a) + HelperCallsFor(b)
  {
    assert forall i :: 0 <= i < |a| ==> (a + b)[i] == a[i];
    assert forall i :: |a| <= i < |a| + |b| ==> (a + b)[i] == b[i - |a|];
  }

  class Builder {
    var mRunNumber: int
    var mEnabledTables: seq<int>
    var v0Map: seq<int>
    /** Timestamp of the last material LUT loaded, if any. */
    var lutTimestamp: Option<int>
    /** Calls handed to the builder helper, in order. */
    var helperCalls: seq<HelperCall>

    constructor ()
      ensures mRunNumber == 0 && mEnabledTables == [] && v0Map == [] && lutTimestamp.None? && helperCalls == []
    {
      mRunNumber := 0;
      mEnabledTables := [];
      v0Map := [];
      lutTimestamp := None;
      helperCalls := [];
    }

    /** `init`: the run cache and the enabled-table vector. */
    method Init(config: seq<int>)
      requires |config| == nTables
      modifies this`mRunNumber, this`mEnabledTables
      ensures mRunNumber == 0
      ensures mEnabledTables == EnabledAfterInit(old(mEnabledTables), config)
    {
      mRunNumber := 0;
      mEnabledTables := Resize(mEnabledTables, nTables, 0);
      ghost var base := mEnabledTables;
      var i := 0;
      while i < nTables
        invariant 0 <= i <= nTables
        invariant mRunNumber == 0
        invariant |mEnabledTables| == nTables
        invariant forall j :: 0 <= j < nTables ==>
                    mEnabledTables[j] == if j < i && config[j] == 1 then 1 else base[j]
      {
        var f := config[i];
        if f == 1 {
          mEnabledTables := mEnabledTables[i := 1];
        }
        i := i + 1;
      }
    }

    /**
     * `initCCDB`: false (skip the data frame) without BCs; true without
     * reloading when the run is the cached one; otherwise loads the LUT for
     * the BC of the first collision (or the first BC). The cached run number
     * is never updated here.
     */
    method InitCcdb(bcs: seq<BC>, collisionBcs: seq<BC>) returns (ok: bool)
      modifies this`lutTimestamp
      ensures ok <==> |bcs| > 0
      ensures var bc := if |collisionBcs| > 0 then collisionBcs[0] else if |bcs| > 0 then bcs[0] else BC(0, 0);
              lutTimestamp == if ok && bc.runNumber != mRunNumber then Some(bc.timestamp) else old(lutTimestamp)
    {
      if |bcs| == 0 {
        return false;
      }
      var bc := if |collisionBcs| > 0 then collisionBcs[0] else bcs[0];
      if mRunNumber == bc.runNumber {
        return true;
      }
      lutTimestamp := Some(bc.timestamp);
      ok := true;
    }

    /** `markV0sUsedInCascades`. */
    method MarkV0sUsedInCascades(nV0s: nat, cascadeV0Ids: seq<nat>)
      requires forall k :: 0 <= k < |cascadeV0Ids| ==> cascadeV0Ids[k] < nV0s
      modifies this`v0Map
      ensures v0Map == MarkedMap(old(v0Map), nV0s, cascadeV0Ids)
      ensures |v0Map| == nV0s && forall k :: 0 <= k < |cascadeV0Ids| ==> v0Map[cascadeV0Ids[k]] == UsedInCascade
    {
      v0Map := Resize(v0Map, nV0s, NotUsed);
      var k := 0;
      while k < |cascadeV0Ids|
        invariant 0 <= k <= |cascadeV0Ids|
        invariant v0Map == MarkedMap(old(v0Map), nV0s, cascadeV0Ids[..k])
      {
        assert cascadeV0Ids[..k + 1][..k] == cascadeV0Ids[..k];
        v0Map := v0Map[cascadeV0Ids[k] := UsedInCascade];
        k := k + 1;
      }
      assert cascadeV0Ids[..k] == cascadeV0Ids;
      forall k | 0 <= k < |cascadeV0Ids| ensures v0Map[cascadeV0Ids[k]] == UsedInCascade {
        MarkedMapEntry(old(v0Map), nV0s, cascadeV0Ids, cascadeV0Ids[k]);
      }
    }

    /** `buildV0s`: the helper is called once per V0, in table order. */
    method BuildV0s(v0s: seq<V0Row>)
      modifies this`helperCalls
      ensures helperCalls == old(helperCalls) + HelperCallsFor(v0s)
    {
      var i := 0;
      while i < |v0s|
        invariant 0 <= i <= |v0s|
        invariant helperCalls == old(helperCalls) + HelperCallsFor(v0s[..i])
      {
        var v0 := v0s[i];
        assert HelperCallsFor(v0s[..i + 1]) == HelperCallsFor(v0s[..i]) + [HelperCall(v0.collisionId, v0.posTrackId, v0.negTrackId, v0.isCollinearV0)];
        helperCalls := helperCalls + [HelperCall(v0.collisionId, v0.posTrackId, v0.negTrackId, v0.isCollinearV0)];
        i := i + 1;
      }
      assert v0s[..i] == v0s;
    }

    /**
     * `dataProcess` (`processRealData`): nothing when the conditions check
     * fails; otherwise the cascade marking, and the V0 build when
     * V0CoresBase is enabled. The cascade branch does nothing.
     */
    method DataProcess(bcs: seq<BC>, collisionBcs: seq<BC>, v0s: seq<V0Row>, cascadeV0Ids: seq<nat>)
      requires |mEnabledTables| == nTables
      requires forall k :: 0 <= k < |cascadeV0Ids| ==> cascadeV0Ids[k] < |v0s|
      modifies this`lutTimestamp, this`v0Map, this`helperCalls
      ensures var bc := if |collisionBcs| > 0 then collisionBcs[0] else if |bcs| > 0 then bcs[0] else BC(0, 0);
              lutTimestamp == if |bcs| > 0 && bc.runNumber != mRunNumber then Some(bc.timestamp) else old(lutTimestamp)
      ensures |bcs| == 0 ==> v0Map == old(v0Map) && helperCalls == old(helperCalls)
      ensures |bcs| > 0 ==> v0Map == MarkedMap(old(v0Map), |v0s|, cascadeV0Ids)
      ensures |bcs| > 0 && mEnabledTables[kV0CoresBase] != 0 ==> helperCalls == old(helperCalls) + HelperCallsFor(v0s)
      ensures mEnabledTables[kV0CoresBase] == 0 ==> helperCalls == old(helperCalls)
    {
      var ok := InitCcdb(bcs, collisionBcs);
      if !ok {
        return;
      }
      MarkV0sUsedInCascades(|v0s|, cascadeV0Ids);
      if mEnabledTables[kV0CoresBase] != 0 {
        BuildV0s(v0s);
      }
      if mEnabledTables[kStoredCascCores] != 0 {
        // the cascade build is not enabled in this version
      }
    }
  }
}
