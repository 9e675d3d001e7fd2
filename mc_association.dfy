/**
 * Monte Carlo association of a V0 with its true mother particle, as done by
 * the label builder, the tag builder and the preselector's PDG check: every
 * mother of the negative daughter's MC particle is compared with every mother
 * of the positive daughter's MC particle, and the last match wins.
 */
module McAssociation {
  import opened StraCommon

  datatype Mother = Mother(globalIndex: nat, pdgCode: int)

  /** The MC side of a daughter track: absent, or a particle with its mothers. */
  datatype McTrack = NoMcParticle | McParticle(mothers: seq<Mother>)

  /** The two MC-labelled daughters of a V0. */
  datatype LabeledV0 = LabeledV0(pos: McTrack, neg: McTrack)

  const K0ShortPdg := 310
  const LambdaPdg := 3122
  const HypertritonPdg := 1010010030
  const GammaPdg := 22

  predicate SharesIndex(m: Mother, posMothers: seq<Mother>)
  {
    exists p :: p in posMothers && p.globalIndex == m.globalIndex
  }

  /**
   * The mother chosen by the double loop: the last mother of the negative
   * daughter that shares its global index with a mother of the positive one.
   */
  function LastCommonMother(negMothers: seq<Mother>, posMothers: seq<Mother>): Option<Mother>
  {
    if |negMothers| == 0 then None
    else
      var m := negMothers[|negMothers| - 1];
      if SharesIndex(m, posMothers) then Some(m)
      else LastCommonMother(negMothers[..|negMothers| - 1], posMothers)
  }

  /** The common mother of the daughters of a V0, if both have an MC particle with mothers. */
  function CommonMother(v0: LabeledV0): Option<Mother>
  {
    if v0.neg.McParticle? && v0.pos.McParticle? && |v0.neg.mothers| > 0 && |v0.pos.mothers| > 0
    then LastCommonMother(v0.neg.mothers, v0.pos.mothers)
    else None
  }

  /** Independent description of the chosen mother: found at position `i`, nothing later matches. */
  lemma {:induction false} LastCommonMotherSpec(negMothers: seq<Mother>, posMothers: seq<Mother>)
    ensures LastCommonMother(negMothers, posMothers).None? <==>
              forall i :: 0 <= i < |negMothers| ==> !SharesIndex(negMothers[i], posMothers)
    ensures LastCommonMother(negMothers, posMothers).Some? ==>
              exists i :: 0 <= i < |negMothers| && negMothers[i] == LastCommonMother(negMothers, posMothers).value
                          && SharesIndex(negMothers[i], posMothers)
                          && forall j :: i < j < |negMothers| ==> !SharesIndex(negMothers[j], posMothers)
  {
    if |negMothers| > 0 {
      var n := |negMothers| - 1;
      var p := negMothers[..n];
      LastCommonMotherSpec(p, posMothers);
      if !SharesIndex(negMothers[n], posMothers) {
        assert forall i :: 0 <= i < n ==> p[i] == negMothers[i];
        if LastCommonMother(p, posMothers).Some? {
          var i :| 0 <= i < |p| && p[i] == LastCommonMother(p, posMothers).value
                   && SharesIndex(p[i], posMothers)
                   && forall j :: i < j < |p| ==> !SharesIndex(p[j], posMothers);
          assert negMothers[i] == p[i];
        }
      }
    }
  }

  /**
   * The double loop of the association check. The result is the last
   * assignment made by the loop.
   */
  method FindCommonMother(negMothers: seq<Mother>, posMothers: seq<Mother>) returns (found: Option<Mother>)
    ensures found == LastCommonMother(negMothers, posMothers)
  {
    found := None;
    var i := 0;
    while i < |negMothers|
      invariant 0 <= i <= |negMothers|
      invariant found == LastCommonMother(negMothers[..i], posMothers)
    {
      var negMother := negMothers[i];
      var j := 0;
      ghost var before := found;
      while j < |posMothers|
        invariant 0 <= j <= |posMothers|
        invariant found == (if (exists q :: 0 <= q < j && posMothers[q].globalIndex == negMother.globalIndex)
                            then Some(negMother) else before)
      {
        if negMother.globalIndex == posMothers[j].globalIndex {
          found := Some(negMother);
        }
        j := j + 1;
      }
      assert SharesIndex(negMother, posMothers) <==>
             exists q :: 0 <= q < |posMothers| && posMothers[q].globalIndex == negMother.globalIndex;
      assert negMothers[..i + 1][..i] == negMothers[..i];
      i := i + 1;
    }
    assert negMothers[..i] == negMothers;
  }

  /** `processBuildV0Labels`: the global index of the common mother, or -1. */
  function V0Label(v0: LabeledV0): (id: int)
    ensures id == -1 <==> CommonMother(v0).None?
    ensures id >= 0 ==> id == CommonMother(v0).value.globalIndex
  {
    match CommonMother(v0)
    case None => -1
    case Some(m) => m.globalIndex
  }

  /** The PDG codes that make a V0 worth building in MC-associated mode. */
  predicate IsInterestingPdg(pdg: int)
  {
    pdg == K0ShortPdg || Abs(pdg as real) == LambdaPdg as real || Abs(pdg as real) == HypertritonPdg as real
  }

  /** The PDG code the association check leaves behind: the mother's, or -1. */
  function AssociatedPdg(v0: LabeledV0): int
  {
    match CommonMother(v0)
    case None => -1
    case Some(m) => m.pdgCode
  }

  /** `processBuildV0Tags`: 1 exactly for associated K0Short, (anti)Lambda and (anti)hypertriton. */
  function V0Tag(v0: LabeledV0): (tag: int)
    ensures tag == 0 || tag == 1
    ensures tag == 1 <==> CommonMother(v0).Some? &&
                          CommonMother(v0).value.pdgCode in {310, 3122, -3122, 1010010030, -1010010030}
  {
    if IsInterestingPdg(AssociatedPdg(v0)) then 1 else 0
  }

  /** Per-V0 association for the whole table, as the process loop does it. */
  method AssociateMothers(v0s: seq<LabeledV0>) returns (mothers: seq<Option<Mother>>)
    ensures |mothers| == |v0s|
    ensures forall i :: 0 <= i < |v0s| ==> mothers[i] == CommonMother(v0s[i])
  {
    mothers := [];
    var i := 0;
    while i < |v0s|
      invariant 0 <= i <= |v0s|
      invariant |mothers| == i
      invariant forall k :: 0 <= k < i ==> mothers[k] == CommonMother(v0s[k])
    {
      var v0 := v0s[i];
      var m := None;
      if v0.neg.McParticle? && v0.pos.McParticle? {
        if |v0.neg.mothers| > 0 && |v0.pos.mothers| > 0 {
          m := FindCommonMother(v0.neg.mothers, v0.pos.mothers);
        }
      }
      mothers := mothers + [m];
      i := i + 1;
    }
  }

  /** `processBuildV0Labels`: one label per V0 row, in table order. */
  method BuildV0Labels(v0s: seq<LabeledV0>) returns (labels: seq<int>)
    ensures |labels| == |v0s|
    ensures forall i :: 0 <= i < |v0s| ==> labels[i] == V0Label(v0s[i])
  {
    var mothers := AssociateMothers(v0s);
    labels := seq(|v0s|, i requires 0 <= i < |v0s| => if mothers[i].Some? then mothers[i].value.globalIndex as int else -1);
  }

  /** `processBuildV0Tags`: one tag per V0 row, in table order. */
  method BuildV0Tags(v0s: seq<LabeledV0>) returns (tags: seq<int>)
    ensures |tags| == |v0s|
    ensures forall i :: 0 <= i < |v0s| ==> tags[i] == V0Tag(v0s[i])
  {
    var mothers := AssociateMothers(v0s);
    tags := seq(|v0s|, i requires 0 <= i < |v0s| =>
                  var pdg := if mothers[i].Some? then mothers[i].value.pdgCode else -1;
                  if IsInterestingPdg(pdg) then 1 else 0);
  }

  /** A label is never invented: a non-negative label is a mother of both daughters. */
  lemma LabelIsSharedMother(v0: LabeledV0)
    requires V0Label(v0) >= 0
    ensures v0.neg.McParticle? && v0.pos.McParticle?
    ensures exists i :: 0 <= i < |v0.neg.mothers| && v0.neg.mothers[i].globalIndex == V0Label(v0)
    ensures exists j :: 0 <= j < |v0.pos.mothers| && v0.pos.mothers[j].globalIndex == V0Label(v0)
  {
    LastCommonMotherSpec(v0.neg.mothers, v0.pos.mothers);
    var m := CommonMother(v0).value;
    var p :| p in v0.pos.mothers && p.globalIndex == m.globalIndex;
    var j :| 0 <= j < |v0.pos.mothers| && v0.pos.mothers[j] == p;
  }

  /** Daughters without a shared mother get label -1 and tag 0. */
  lemma UnassociatedV0(v0: LabeledV0)
    requires v0.neg.McParticle? && v0.pos.McParticle?
    requires forall i, j :: 0 <= i < |v0.neg.mothers| && 0 <= j < |v0.pos.mothers| ==>
               v0.neg.mothers[i].globalIndex != v0.pos.mothers[j].globalIndex
    ensures V0Label(v0) == -1 && V0Tag(v0) == 0
  {
    LastCommonMotherSpec(v0.neg.mothers, v0.pos.mothers);
    assert forall p, j :: p in v0.pos.mothers && 0 <= j < |v0.pos.mothers| && v0.pos.mothers[j] == p ==>
             forall i :: 0 <= i < |v0.neg.mothers| ==> v0.neg.mothers[i].globalIndex != p.globalIndex;
  }
}
