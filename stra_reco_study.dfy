/**
 * The reconstruction-study QC tasks: the per-MC-collision pass that ranks
 * the reconstructed collisions of one generated collision by their number of
 * contributors, and the V0/cascade study with its event-selection counters
 * and its selection nest in front of the invariant-mass histograms.
 */
module StraRecoStudy {
  import opened StraCommon

  // ---------------------------------------------------------------------
  // sort_indices: stable argsort, descending
  // ---------------------------------------------------------------------

  /** Index `x` precedes index `y`: larger value first, ties in ascending index order. */
  predicate Before(v: seq<int>, x: nat, y: nat)
    requires x < |v| && y < |v|
  {
    v[x] > v[y] || (v[x] == v[y] && x < y)
  }

  predicate InBounds(idx: seq<nat>, n: nat)
  {
    forall k :: 0 <= k < |idx| ==> idx[k] < n
  }

  /** The indices are listed in stable descending order of their values. */
  predicate OrderedBy(v: seq<int>, idx: seq<nat>)
    requires InBounds(idx, |v|)
  {
    forall a, b :: 0 <= a < b < |idx| ==> Before(v, idx[a], idx[b])
  }

  /** `idx` lists each of 0 .. n-1 exactly once. */
  predicate IsPermutation(idx: seq<nat>, n: nat)
  {
    |idx| == n && InBounds(idx, n)
    && (forall a, b :: 0 <= a < b < n ==> idx[a] != idx[b])
    && (forall j :: 0 <= j < n ==> j in idx)
  }

  /** Inserting index `i` at the first position whose value is below `v[i]` keeps the order. */
  lemma InsertKeepsOrder(v: seq<int>, idx: seq<nat>, i: nat, p: nat)
    requires i < |v| && InBounds(idx, i) && OrderedBy(v, idx)
    requires p <= |idx|
    requires forall k :: 0 <= k < p ==> v[idx[k]] >= v[i]
    requires p < |idx| ==> v[idx[p]] < v[i]
    ensures InBounds(idx[..p] + [i] + idx[p..], i + 1)
    ensures OrderedBy(v, idx[..p] + [i] + idx[p..])
    ensures forall j :: j in idx ==> j in idx[..p] + [i] + idx[p..]
  {
    var r := idx[..p] + [i] + idx[p..];
    forall a, b | 0 <= a < b < |r|
      ensures Before(v, r[a], r[b])
    {
      if b < p {
        assert r[a] == idx[a] && r[b] == idx[b];
      } else if b == p {
        assert r[a] == idx[a] && r[b] == i;
      } else if a == p {
        assert r[a] == i && r[b] == idx[b - 1];
        if b - 1 > p {
          assert Before(v, idx[p], idx[b - 1]);
        }
      } else if a < p {
        assert r[a] == idx[a] && r[b] == idx[b - 1];
      } else {
        assert r[a] == idx[a - 1] && r[b] == idx[b - 1];
      }
    }
    forall j | j in idx
      ensures j in r
    {
      var k :| 0 <= k < |idx| && idx[k] == j;
      if k < p {
        assert r[k] == j;
      } else {
        assert r[k + 1] == j;
      }
    }
    forall k | 0 <= k < |r|
      ensures r[k] < i + 1
    {
      if k < p {
        assert r[k] == idx[k];
      } else if k > p {
        assert r[k] == idx[k - 1];
      }
    }
  }

  /**
   * `sort_indices`: the positions 0 .. |v|-1 ordered by decreasing value,
   * equal values keeping their original order (`std::stable_sort` with `>`).
   */
  method SortIndices(v: seq<int>) returns (idx: seq<nat>)
    ensures IsPermutation(idx, |v|)
    ensures OrderedBy(v, idx)
    ensures forall a, b :: 0 <= a < b < |idx| ==> v[idx[a]] >= v[idx[b]]
  {
    idx := [];
    var i := 0;
    while i < |v|
      invariant 0 <= i <= |v|
      invariant |idx| == i && InBounds(idx, i)
      invariant forall j :: 0 <= j < i ==> j in idx
      invariant OrderedBy(v, idx)
    {
      var p := 0;
      while p < |idx| && v[idx[p]] >= v[i]
        invariant 0 <= p <= |idx|
        invariant forall k :: 0 <= k < p ==> v[idx[k]] >= v[i]
      {
        p := p + 1;
      }
      InsertKeepsOrder(v, idx, i, p);
      idx := idx[..p] + [i] + idx[p..];
      i := i + 1;
    }
    forall a, b | 0 <= a < b < |idx|
      ensures idx[a] != idx[b] && v[idx[a]] >= v[idx[b]]
    {
      assert Before(v, idx[a], idx[b]);
    }
  }

  // ---------------------------------------------------------------------
  // Y offset of the "N times reconstructed" blocks
  // ---------------------------------------------------------------------

  /** `lYAxisOffset`: the first Y row of the block for a collision reconstructed `n` times. */
  function YAxisOffset(n: nat): nat
  {
    if n == 0 then 0 else n * (n - 1) / 2
  }

  /** Rows used by the blocks of multiplicities 1 .. n-1 (multiplicity m has m rows). */
  function RowsBelow(n: nat): nat
  {
    if n == 0 then 0 else RowsBelow(n - 1) + (n - 1)
  }

  /** The block of multiplicity n+1 starts right after the n rows of multiplicity n. */
  lemma OffsetStep(n: nat)
    ensures YAxisOffset(n + 1) == YAxisOffset(n) + n
  {
    if n > 0 {
      var m := n * (n - 1);
      assert (n + 1) * n == m + 2 * n;
      assert (m + 2 * n) / 2 == m / 2 + n;
    }
  }

  /** The offset is the number of rows taken by all smaller multiplicities. */
  lemma {:induction false} OffsetIsRowsBelow(n: nat)
    ensures YAxisOffset(n) == RowsBelow(n)
  {
    if n > 0 {
      OffsetIsRowsBelow(n - 1);
      OffsetStep(n - 1);
    }
  }

  /** The bin-label layout: blocks of 1, 2, 3 and 4 collisions start at rows 0, 1, 3 and 6. */
  lemma OffsetsMatchBinLabels()
    ensures YAxisOffset(1) == 0 && YAxisOffset(2) == 1 && YAxisOffset(3) == 3 && YAxisOffset(4) == 6
    ensures YAxisOffset(4) + 3 < 10
  {
  }

  /** Rows of different (multiplicity, rank) pairs never coincide. */
  lemma {:induction false} BlocksDisjoint(m1: nat, r1: nat, m2: nat, r2: nat)
    requires r1 < m1 < m2 && r2 < m2
    ensures YAxisOffset(m1) + r1 < YAxisOffset(m2) + r2
  {
    if m1 + 1 == m2 {
      OffsetStep(m1);
    } else {
      BlocksDisjoint(m1, r1, m2 - 1, 0);
      OffsetStep(m2 - 1);
    }
  }

  // ---------------------------------------------------------------------
  // Per-collision aggregation
  // ---------------------------------------------------------------------

  datatype McParticle = McParticle(pdgCode: int, eta: real)

  datatype RecoCollision = RecoCollision(globalIndex: int, numContrib: int, covXX: real, covYY: real, covZZ: real)

  datatype RecoTrack = RecoTrack(collisionId: int, isPVContributor: bool,
                                 hasITS: bool, hasTPC: bool, hasTRD: bool, hasTOF: bool)

  /** `collisionStats`. */
  datatype CollisionStats = CollisionStats(nContribsWithTPC: nat, nContribsWithTRD: nat,
                                           nContribsWithTOF: nat, nContribsWithITS: nat, covTrace: real)

  const NoStats := CollisionStats(0, 0, 0, 0, 0.0)

  datatype Detector = ITS | TPC | TRD | TOF

  /** Which tracks of a collision are counted. */
  datatype TrackSel = InSlice | Contributor | ContributorWith(det: Detector)

  predicate HasDetector(t: RecoTrack, d: Detector)
  {
    match d
    case ITS => t.hasITS
    case TPC => t.hasTPC
    case TRD => t.hasTRD
    case TOF => t.hasTOF
  }

  predicate Selects(sel: TrackSel, t: RecoTrack, gid: int)
  {
    t.collisionId == gid
    && match sel
       case InSlice => true
       case Contributor => t.isPVContributor
       case ContributorWith(d) => t.isPVContributor && HasDetector(t, d)
  }

  /** Number of tracks of collision `gid` that `sel` counts. */
  function Count(tracks: seq<RecoTrack>, gid: int, sel: TrackSel): nat
  {
    if |tracks| == 0 then 0
    else Count(tracks[..|tracks| - 1], gid, sel) + (if Selects(sel, tracks[|tracks| - 1], gid) then 1 else 0)
  }

  /** Detector counts are among the PV contributors, which are among the collision's slice. */
  lemma {:induction false} CountsWithinSlice(tracks: seq<RecoTrack>, gid: int, d: Detector)
    ensures Count(tracks, gid, ContributorWith(d)) <= Count(tracks, gid, Contributor)
    ensures Count(tracks, gid, Contributor) <= Count(tracks, gid, InSlice)
    ensures Count(tracks, gid, InSlice) <= |tracks|
  {
    if |tracks| > 0 {
      CountsWithinSlice(tracks[..|tracks| - 1], gid, d);
    }
  }

  /** Tracks of other collisions do not change a collision's counts. */
  lemma {:induction false} CountIgnoresOtherCollisions(tracks: seq<RecoTrack>, other: seq<RecoTrack>, gid: int, sel: TrackSel)
    requires forall k :: 0 <= k < |other| ==> other[k].collisionId != gid
    ensures Count(tracks + other, gid, sel) == Count(tracks, gid, sel)
  {
    if |other| > 0 {
      var n := |other| - 1;
      assert (tracks + other)[..|tracks + other| - 1] == tracks + other[..n];
      assert (tracks + other)[|tracks + other| - 1] == other[n];
      CountIgnoresOtherCollisions(tracks, other[..n], gid, sel);
      assert !Selects(sel, other[n], gid);
    } else {
      assert tracks + other == tracks;
    }
  }

  /** The statistics of one collision over the given tracks. */
  function StatsFor(c: RecoCollision, tracks: seq<RecoTrack>, sqrt: real -> real): CollisionStats
  {
    CollisionStats(Count(tracks, c.globalIndex, ContributorWith(TPC)),
                   Count(tracks, c.globalIndex, ContributorWith(TRD)),
                   Count(tracks, c.globalIndex, ContributorWith(TOF)),
                   Count(tracks, c.globalIndex, ContributorWith(ITS)),
                   sqrt(c.covXX + c.covYY + c.covZZ))
  }

  lemma CountStep(done: seq<RecoTrack>, t: RecoTrack, gid: int, sel: TrackSel)
    ensures Count(done + [t], gid, sel) == Count(done, gid, sel) + (if Selects(sel, t, gid) then 1 else 0)
  {
    assert (done + [t])[..|done + [t]| - 1] == done;
  }

  /** One track of the slice: the four in-place increments. */
  method CountTrack(agg: array<CollisionStats>, ci: nat, c: RecoCollision, t: RecoTrack,
                    ghost done: seq<RecoTrack>, ghost sqrt: real -> real)
    requires ci < agg.Length
    requires agg[ci] == StatsFor(c, done, sqrt)
    modifies agg
    ensures agg[ci] == StatsFor(c, done + [t], sqrt)
    ensures forall k :: 0 <= k < agg.Length && k != ci ==> agg[k] == old(agg[k])
  {
    CountStep(done, t, c.globalIndex, ContributorWith(ITS));
    CountStep(done, t, c.globalIndex, ContributorWith(TPC));
    CountStep(done, t, c.globalIndex, ContributorWith(TRD));
    CountStep(done, t, c.globalIndex, ContributorWith(TOF));
    var st := agg[ci];
    if t.collisionId == c.globalIndex && t.isPVContributor {
      if t.hasITS {
        st := st.(nContribsWithITS := st.nContribsWithITS + 1);
      }
      if t.hasTPC {
        st := st.(nContribsWithTPC := st.nContribsWithTPC + 1);
      }
      if t.hasTRD {
        st := st.(nContribsWithTRD := st.nContribsWithTRD + 1);
      }
      if t.hasTOF {
        st := st.(nContribsWithTOF := st.nContribsWithTOF + 1);
      }
    }
    agg[ci] := st;
  }

  /**
   * The aggregation loop of the MC-collision pass: for each reconstructed
   * collision its number of contributors, the square root of its vertex
   * covariance trace, and the counts of its PV-contributor tracks seen by
   * each detector. Iterating all tracks and skipping other collisions'
   * tracks stands for the per-collision slice.
   */
  method Aggregate(collisions: seq<RecoCollision>, tracks: seq<RecoTrack>, sqrt: real -> real)
    returns (stats: seq<CollisionStats>, nContribs: seq<int>)
    ensures |stats| == |collisions| && |nContribs| == |collisions|
    ensures forall c :: 0 <= c < |collisions| ==>
              stats[c] == StatsFor(collisions[c], tracks, sqrt) && nContribs[c] == collisions[c].numContrib
  {
    var agg := new CollisionStats[|collisions|](_ => NoStats);
    nContribs := [];
    var ci := 0;
    while ci < |collisions|
      invariant 0 <= ci <= |collisions|
      invariant |nContribs| == ci
      invariant forall k :: 0 <= k < ci ==> nContribs[k] == collisions[k].numContrib
      invariant forall k :: 0 <= k < ci ==> agg[k] == StatsFor(collisions[k], tracks, sqrt)
    {
      var c := collisions[ci];
      nContribs := nContribs + [c.numContrib];
      agg[ci] := NoStats.(covTrace := sqrt(c.covXX + c.covYY + c.covZZ));
      var j := 0;
      while j < |tracks|
        invariant 0 <= j <= |tracks|
        invariant agg[ci] == StatsFor(c, tracks[..j], sqrt)
        invariant forall k :: 0 <= k < ci ==> agg[k] == StatsFor(collisions[k], tracks, sqrt)
      {
        assert tracks[..j + 1] == tracks[..j] + [tracks[j]];
        CountTrack(agg, ci, c, tracks[j], tracks[..j], sqrt);
        j := j + 1;
      }
      assert tracks[..j] == tracks;
      ci := ci + 1;
    }
    stats := agg[..];
  }

  /** A detector count of a collision never exceeds its number of tracks. */
  lemma StatsBoundedBySlice(c: RecoCollision, tracks: seq<RecoTrack>, sqrt: real -> real)
    ensures var s := StatsFor(c, tracks, sqrt);
            var slice := Count(tracks, c.globalIndex, InSlice);
            s.nContribsWithITS <= slice && s.nContribsWithTPC <= slice
            && s.nContribsWithTRD <= slice && s.nContribsWithTOF <= slice
  {
    CountsWithinSlice(tracks, c.globalIndex, ITS);
    CountsWithinSlice(tracks, c.globalIndex, TPC);
    CountsWithinSlice(tracks, c.globalIndex, TRD);
    CountsWithinSlice(tracks, c.globalIndex, TOF);
  }

  /** Generated Xi- within |eta| < 0.8: the trigger mimicked by the "WithXi" histograms. */
  function NumberOfXi(mcParticles: seq<McParticle>): nat
  {
    if |mcParticles| == 0 then 0
    else
      var p := mcParticles[|mcParticles| - 1];
      NumberOfXi(mcParticles[..|mcParticles| - 1]) + (if Abs(p.eta) < 0.8 && p.pdgCode == 3312 then 1 else 0)
  }

  /** The loop counting the generated Xi- of the event. */
  method CountXi(mcParticles: seq<McParticle>) returns (lNumberOfXi: nat)
    ensures lNumberOfXi == NumberOfXi(mcParticles)
  {
    lNumberOfXi := 0;
    var m := 0;
    while m < |mcParticles|
      invariant 0 <= m <= |mcParticles|
      invariant lNumberOfXi == NumberOfXi(mcParticles[..m])
    {
      assert mcParticles[..m + 1][..m] == mcParticles[..m];
      if Abs(mcParticles[m].eta) < 0.8 && mcParticles[m].pdgCode == 3312 {
        lNumberOfXi := lNumberOfXi + 1;
      }
      m := m + 1;
    }
    assert mcParticles[..m] == mcParticles;
  }

  /**
   * What is filled for the collision of rank `r` (0 = most contributors):
   * its contributor count and statistics, at Y row `yRow` of the
   * contributor and covariance histograms and at X bins from `indexBin` of
   * the track counter.
   */
  datatype RankFill = RankFill(nContribs: int, stats: CollisionStats, yRow: int, indexBin: int)

  /** The loop over the collisions in rank order. */
  method RankedFills(order: seq<nat>, nContribs: seq<int>, stats: seq<CollisionStats>, lYAxisOffset: int, withXi: bool)
    returns (fills: seq<RankFill>, fillsWithXi: seq<RankFill>)
    requires InBounds(order, |nContribs|) && |stats| == |nContribs|
    ensures |fills| == |order|
    ensures forall r :: 0 <= r < |order| ==>
              fills[r] == RankFill(nContribs[order[r]], stats[order[r]], lYAxisOffset + r, 7 * r)
    ensures fillsWithXi == if withXi then fills else []
  {
    fills := [];
    fillsWithXi := [];
    var r := 0;
    while r < |order|
      invariant 0 <= r <= |order|
      invariant |fills| == r
      invariant forall k :: 0 <= k < r ==>
                  fills[k] == RankFill(nContribs[order[k]], stats[order[k]], lYAxisOffset + k, 7 * k)
      invariant fillsWithXi == if withXi then fills else []
    {
      var ic := order[r];
      var f := RankFill(nContribs[ic], stats[ic], lYAxisOffset + r, 7 * r);
      fills := fills + [f];
      if withXi {
        fillsWithXi := fillsWithXi + [f];
      }
      r := r + 1;
    }
  }

  /**
   * `preProcessMCcollisions::process`: the reconstruction-count fills, the
   * per-collision `hCyyTest` fill, the ranked fills of the reconstructed
   * collisions of one generated collision (copied to the "WithXi"
   * histograms when the event holds a generated Xi-), and the McCollsExtra
   * row, which holds the number of reconstructions.
   */
  method ProcessMcCollision(mcParticles: seq<McParticle>, collisions: seq<RecoCollision>,
                            tracks: seq<RecoTrack>, sqrt: real -> real)
    returns (nTimesRecoed: seq<int>, nTimesWithXi: seq<int>, cyy: seq<real>,
             order: seq<nat>, fills: seq<RankFill>, fillsWithXi: seq<RankFill>, extraRow: int)
    ensures nTimesRecoed == [|collisions|]
    ensures nTimesWithXi == if NumberOfXi(mcParticles) > 0 then [|collisions|] else []
    ensures |cyy| == |collisions| && forall i :: 0 <= i < |collisions| ==> cyy[i] == sqrt(collisions[i].covYY)
    ensures IsPermutation(order, |collisions|)
    ensures |fills| == |collisions|
    ensures forall r :: 0 <= r < |fills| ==>
              fills[r] == RankFill(collisions[order[r]].numContrib, StatsFor(collisions[order[r]], tracks, sqrt),
                                   YAxisOffset(|collisions|) + r, 7 * r)
    ensures forall a, b :: 0 <= a < b < |fills| ==>
              fills[a].nContribs > fills[b].nContribs
              || (fills[a].nContribs == fills[b].nContribs && order[a] < order[b])
    ensures fillsWithXi == if NumberOfXi(mcParticles) > 0 then fills else []
    ensures extraRow == |collisions|
  {
    var lNumberOfXi := CountXi(mcParticles);
    nTimesRecoed := [|collisions|];
    nTimesWithXi := if lNumberOfXi > 0 then [|collisions|] else [];
    cyy := seq(|collisions|, i requires 0 <= i < |collisions| => sqrt(collisions[i].covYY));
    var stats, nContribs := Aggregate(collisions, tracks, sqrt);
    order := SortIndices(nContribs);
    fills, fillsWithXi := RankedFills(order, nContribs, stats, YAxisOffset(|collisions|), lNumberOfXi > 0);
    forall a, b | 0 <= a < b < |fills|
      ensures fills[a].nContribs > fills[b].nContribs
              || (fills[a].nContribs == fills[b].nContribs && order[a] < order[b])
    {
      assert Before(nContribs, order[a], order[b]);
    }
    extraRow := |collisions|;
  }

  // ---------------------------------------------------------------------
  // The V0 / cascade study
  // ---------------------------------------------------------------------

  /** `evselstep`. */
  const kEvSelAll := 0
  const kEvSelBool := 1
  const kEvSelVtxZ := 2
  const kEvSelAllSteps := 3
  /** Bins of `hEventSelection`. */
  const kEventSelectionBins := 10

  datatype StudyConfig = StudyConfig(
    v0settingCospa: real, v0settingDcav0dau: real, v0settingRadius: real,
    cascadesettingCospa: real, cascadesettingCascradius: real,
    eventSel8Selection: bool, eventPosZSelection: bool,
    tpcmincrossedrows: int, itsminclusters: int)

  const DefaultStudyConfig := StudyConfig(0.95, 1.0, 0.9, 0.95, 0.5, true, true, 70, 4)

  datatype EvSelCollision = EvSelCollision(sel8: bool, posZ: real)

  /** A reconstructed V0 with its MC label; the pointing angle is the one to this collision's vertex. */
  datatype StudyV0 = StudyV0(
    hasMcParticle: bool, posHasMcParticle: bool, negHasMcParticle: bool,
    pdgCode: int, y: real, pos: Track, neg: Track,
    v0radius: real, v0cosPA: real, dcaV0daughters: real,
    mK0Short: real, mLambda: real, mAntiLambda: real)

  /** A reconstructed cascade with its MC label and the V0 it links to. */
  datatype StudyCascade = StudyCascade(
    hasMcParticle: bool, pdgCode: int, y: real, hasV0Data: bool,
    pos: Track, neg: Track, bach: Track,
    v0radius: real, cascradius: real, v0cosPA: real, casccosPA: real, dcaV0daughters: real,
    mXi: real, mOmega: real)

  datatype MassHist = MassK0Short | MassLambda | MassAntiLambda
                    | MassXiMinus | MassXiPlus | MassOmegaMinus | MassOmegaPlus

  datatype MassFill = MassFill(hist: MassHist, mass: real)

  /** Number of event-selection counters a collision bumps: All, then Sel8, then posZ. */
  function EvSelReached(cfg: StudyConfig, col: EvSelCollision): (k: nat)
    ensures 1 <= k <= kEvSelAllSteps
    ensures k >= 2 <==> !cfg.eventSel8Selection || col.sel8
    ensures k == 3 <==> k >= 2 && (!cfg.eventPosZSelection || Abs(col.posZ) <= 10.0)
  {
    if cfg.eventSel8Selection && !col.sel8 then 1
    else if cfg.eventPosZSelection && Abs(col.posZ) > 10.0 then 2
    else 3
  }

  /** One daughter passes the ITS-cluster and TPC crossed-rows minima. */
  predicate TrackQuality(cfg: StudyConfig, t: Track)
  {
    t.itsNCls >= cfg.itsminclusters && t.tpcNClsCrossedRows >= cfg.tpcmincrossedrows
  }

  /** The two daughter-quality cuts of the V0 loop: ITS clusters first, then crossed rows. */
  function V0DaughterQuality(cfg: StudyConfig, v: StudyV0): (ok: bool)
    ensures ok <==> TrackQuality(cfg, v.pos) && TrackQuality(cfg, v.neg)
  {
    if v.pos.itsNCls < cfg.itsminclusters || v.neg.itsNCls < cfg.itsminclusters then false
    else if v.pos.tpcNClsCrossedRows < cfg.tpcmincrossedrows || v.neg.tpcNClsCrossedRows < cfg.tpcmincrossedrows then false
    else true
  }

  /** Everything a V0 must pass before its mass is filled; every topological cut is strict. */
  predicate V0Selected(cfg: StudyConfig, v: StudyV0)
  {
    v.hasMcParticle && v.posHasMcParticle && v.negHasMcParticle
    && Abs(v.y) <= 0.5
    && TrackQuality(cfg, v.pos) && TrackQuality(cfg, v.neg)
    && v.v0radius > cfg.v0settingRadius
    && v.v0cosPA > cfg.v0settingCospa
    && v.dcaV0daughters < cfg.v0settingDcav0dau
  }

  /** The mass fill of one V0 of the loop, if any. */
  function V0MassFill(cfg: StudyConfig, v: StudyV0): (f: Option<MassFill>)
    ensures f.Some? <==> V0Selected(cfg, v) && v.pdgCode in {310, 3122, -3122}
    ensures f.Some? ==>
              f.value == (if v.pdgCode == 310 then MassFill(MassK0Short, v.mK0Short)
                          else if v.pdgCode == 3122 then MassFill(MassLambda, v.mLambda)
                          else MassFill(MassAntiLambda, v.mAntiLambda))
  {
    if !v.hasMcParticle || !v.posHasMcParticle || !v.negHasMcParticle then None
    else if Abs(v.y) > 0.5 then None
    else if !V0DaughterQuality(cfg, v) then None
    else if v.v0radius > cfg.v0settingRadius then
      if v.v0cosPA > cfg.v0settingCospa then
        if v.dcaV0daughters < cfg.v0settingDcav0dau then
          if v.pdgCode == 310 then Some(MassFill(MassK0Short, v.mK0Short))
          else if v.pdgCode == 3122 then Some(MassFill(MassLambda, v.mLambda))
          else if v.pdgCode == -3122 then Some(MassFill(MassAntiLambda, v.mAntiLambda))
          else None
        else None
      else None
    else None
  }

  function Fills(f: Option<MassFill>): seq<MassFill>
  {
    if f.Some? then [f.value] else []
  }

  /** The mass fills of a V0 loop, in V0 order. */
  function V0MassFills(cfg: StudyConfig, v0s: seq<StudyV0>): seq<MassFill>
  {
    if |v0s| == 0 then []
    else V0MassFills(cfg, v0s[..|v0s| - 1]) + Fills(V0MassFill(cfg, v0s[|v0s| - 1]))
  }

  /** Every mass filled comes from a selected V0 of a known species; at most one per V0. */
  lemma {:induction false} V0MassFillsAreSelected(cfg: StudyConfig, v0s: seq<StudyV0>)
    ensures |V0MassFills(cfg, v0s)| <= |v0s|
    ensures forall f :: f in V0MassFills(cfg, v0s) ==>
              exists k :: 0 <= k < |v0s| && V0Selected(cfg, v0s[k]) && V0MassFill(cfg, v0s[k]) == Some(f)
  {
    if |v0s| > 0 {
      var n := |v0s| - 1;
      V0MassFillsAreSelected(cfg, v0s[..n]);
      forall f | f in V0MassFills(cfg, v0s)
        ensures exists k :: 0 <= k < |v0s| && V0Selected(cfg, v0s[k]) && V0MassFill(cfg, v0s[k]) == Some(f)
      {
        if f in V0MassFills(cfg, v0s[..n]) {
          var k :| 0 <= k < n && V0Selected(cfg, v0s[..n][k]) && V0MassFill(cfg, v0s[..n][k]) == Some(f);
          assert v0s[..n][k] == v0s[k];
        } else {
          assert V0MassFill(cfg, v0s[n]) == Some(f);
        }
      }
    }
  }

  /** A V0 sitting exactly on the radius threshold is not filled: the cut is strict. */
  lemma RadiusCutIsStrict(cfg: StudyConfig, v: StudyV0)
    requires v.v0radius == cfg.v0settingRadius
    ensures V0MassFill(cfg, v).None?
  {
  }

  /** The cascade daughter-quality cuts as written: the bachelor's ITS count is compared with the crossed-rows minimum. */
  predicate CascadeQualityAsWritten(cfg: StudyConfig, c: StudyCascade)
  {
    !(c.pos.itsNCls < cfg.itsminclusters || c.neg.itsNCls < cfg.itsminclusters || c.bach.itsNCls < cfg.itsminclusters)
    && !(c.pos.tpcNClsCrossedRows < cfg.tpcmincrossedrows || c.neg.tpcNClsCrossedRows < cfg.tpcmincrossedrows
         || c.bach.itsNCls < cfg.tpcmincrossedrows)
  }

  /**
   * With at most 7 ITS clusters (the number of ITS layers) and a
   * crossed-rows minimum above 7, the cuts as written reject every cascade,
   * even one whose three daughters all pass both minima.
   */
  lemma CascadeQualityAsWrittenCounterexample()
    ensures var t := Track(true, 120, 7, 0.0);
            var c := StudyCascade(true, 3312, 0.0, true, t, t, t, 5.0, 2.0, 0.999, 0.999, 0.1, 1.32, 1.67);
            TrackQuality(DefaultStudyConfig, t) && !CascadeQualityAsWritten(DefaultStudyConfig, c)
    ensures forall c: StudyCascade :: c.bach.itsNCls <= 7 && DefaultStudyConfig.tpcmincrossedrows > 7 ==>
              !CascadeQualityAsWritten(DefaultStudyConfig, c)
  {
  }

  /** The cascade daughter-quality cuts: ITS clusters for all three daughters, then crossed rows for all three. */
  function CascadeQuality(cfg: StudyConfig, c: StudyCascade): (ok: bool)
    ensures ok <==> TrackQuality(cfg, c.pos) && TrackQuality(cfg, c.neg) && TrackQuality(cfg, c.bach)
  {
    if c.pos.itsNCls < cfg.itsminclusters || c.neg.itsNCls < cfg.itsminclusters || c.bach.itsNCls < cfg.itsminclusters then false
    else if c.pos.tpcNClsCrossedRows < cfg.tpcmincrossedrows || c.neg.tpcNClsCrossedRows < cfg.tpcmincrossedrows
         || c.bach.tpcNClsCrossedRows < cfg.tpcmincrossedrows then false
    else true
  }

  /**
   * Everything a cascade with an MC particle must pass before its mass is
   * filled, with the daughter cuts as written: the bachelor's ITS count has
   * to reach both the ITS and the crossed-rows minimum, and its crossed rows
   * are not looked at.
   */
  predicate CascadeSelected(cfg: StudyConfig, c: StudyCascade)
  {
    Abs(c.y) <= 0.5 && c.hasV0Data
    && TrackQuality(cfg, c.pos) && TrackQuality(cfg, c.neg)
    && c.bach.itsNCls >= cfg.itsminclusters && c.bach.itsNCls >= cfg.tpcmincrossedrows
    && c.v0radius > cfg.v0settingRadius && c.cascradius > cfg.cascadesettingCascradius
    && c.v0cosPA > cfg.v0settingCospa && c.casccosPA > cfg.cascadesettingCospa
    && c.dcaV0daughters < cfg.v0settingDcav0dau
  }

  /** The mass fill of one cascade that has an MC particle, if any. */
  function CascadeMassFill(cfg: StudyConfig, c: StudyCascade): (f: Option<MassFill>)
    ensures f.Some? <==> CascadeSelected(cfg, c) && c.pdgCode in {3312, -3312, 3334, -3334}
    ensures f.Some? ==>
              f.value == (if c.pdgCode == 3312 then MassFill(MassXiMinus, c.mXi)
                          else if c.pdgCode == -3312 then MassFill(MassXiPlus, c.mXi)
                          else if c.pdgCode == 3334 then MassFill(MassOmegaMinus, c.mOmega)
                          else MassFill(MassOmegaPlus, c.mOmega))
  {
    if Abs(c.y) > 0.5 then None
    else if !c.hasV0Data then None
    else if !CascadeQualityAsWritten(cfg, c) then None
    else if c.v0radius > cfg.v0settingRadius && c.cascradius > cfg.cascadesettingCascradius then
      if c.v0cosPA > cfg.v0settingCospa then
        if c.casccosPA > cfg.cascadesettingCospa then
          if c.dcaV0daughters < cfg.v0settingDcav0dau then
            if c.pdgCode == 3312 then Some(MassFill(MassXiMinus, c.mXi))
            else if c.pdgCode == -3312 then Some(MassFill(MassXiPlus, c.mXi))
            else if c.pdgCode == 3334 then Some(MassFill(MassOmegaMinus, c.mOmega))
            else if c.pdgCode == -3334 then Some(MassFill(MassOmegaPlus, c.mOmega))
            else None
          else None
        else None
      else None
    else None
  }

  function CascadeMassFills(cfg: StudyConfig, cs: seq<StudyCascade>): seq<MassFill>
  {
    if |cs| == 0 then []
    else CascadeMassFills(cfg, cs[..|cs| - 1]) + Fills(CascadeMassFill(cfg, cs[|cs| - 1]))
  }

  /** Position of the first cascade without an MC particle (|cs| if there is none). */
  function FirstWithoutMc(cs: seq<StudyCascade>): (k: nat)
    ensures k <= |cs|
    ensures forall j :: 0 <= j < k ==> cs[j].hasMcParticle
    ensures k < |cs| ==> !cs[k].hasMcParticle
  {
    if |cs| == 0 || !cs[0].hasMcParticle then 0 else 1 + FirstWithoutMc(cs[1..])
  }

  /**
   * With the default crossed-rows minimum of 70 and bachelors of at most 7
   * ITS clusters, the cascade loop fills nothing at all.
   */
  lemma {:induction false} DefaultConfigFillsNoCascade(cs: seq<StudyCascade>)
    requires forall i :: 0 <= i < |cs| ==> cs[i].bach.itsNCls <= 7
    ensures CascadeMassFills(DefaultStudyConfig, cs) == []
  {
    if |cs| > 0 {
      DefaultConfigFillsNoCascade(cs[..|cs| - 1]);
      assert !CascadeQualityAsWritten(DefaultStudyConfig, cs[|cs| - 1]);
    }
  }

  /**
   * A cascade without MC particle ends the loop: a Xi- that would be filled
   * on its own (here under a crossed-rows minimum the bachelor's ITS count
   * can reach) is not reached behind an unlabelled one.
   */
  lemma CascadeLoopStopsAtFirstWithoutMc()
    ensures var cfg := DefaultStudyConfig.(tpcmincrossedrows := 7);
            var t := Track(true, 120, 7, 0.0);
            var xi := StudyCascade(true, 3312, 0.0, true, t, t, t, 5.0, 2.0, 0.999, 0.999, 0.1, 1.32, 1.67);
            var unlabelled := xi.(hasMcParticle := false);
            CascadeMassFills(cfg, [xi]) == [MassFill(MassXiMinus, 1.32)]
            && FirstWithoutMc([unlabelled, xi]) == 0
  {
    var cfg := DefaultStudyConfig.(tpcmincrossedrows := 7);
    var t := Track(true, 120, 7, 0.0);
    var xi := StudyCascade(true, 3312, 0.0, true, t, t, t, 5.0, 2.0, 0.999, 0.999, 0.1, 1.32, 1.67);
    assert CascadeSelected(cfg, xi);
    assert [xi][..0] == [];
  }

  /**
   * On a table in which every cascade has an MC particle, as the cascade
   * prefilter on `mcParticleId > -1` guarantees, the loop never stops early.
   */
  lemma LabelledTableIsScannedWhole(cs: seq<StudyCascade>)
    requires forall i :: 0 <= i < |cs| ==> cs[i].hasMcParticle
    ensures FirstWithoutMc(cs) == |cs|
    ensures cs[..FirstWithoutMc(cs)] == cs
  {
  }

  /** `hEventSelection` after `fillHistos`: bin i gains counter i. */
  function AddCounts(h: seq<int>, counts: seq<int>): (r: seq<int>)
    requires |counts| <= |h|
    ensures |r| == |h|
    ensures forall b :: 0 <= b < |h| ==> r[b] == h[b] + (if b < |counts| then counts[b] else 0)
  {
    seq(|h|, b requires 0 <= b < |h| => h[b] + (if b < |counts| then counts[b] else 0))
  }

  /** Filling a non-increasing registry into a non-increasing histogram keeps it non-increasing. */
  lemma AddCountsKeepsOrder(h: seq<int>, counts: seq<int>)
    requires |counts| == kEvSelAllSteps && |h| == kEventSelectionBins
    requires h[0] >= h[1] >= h[2] >= 0 && counts[0] >= counts[1] >= counts[2] >= 0
    ensures var r := AddCounts(h, counts); r[0] >= r[1] >= r[2] >= 0
    ensures forall b :: kEvSelAllSteps <= b < kEventSelectionBins ==> AddCounts(h, counts)[b] == h[b]
  {
  }

  class Study {
    const cfg: StudyConfig
    /** `evselstats`, one counter per event-selection step. */
    const evselstats: array<int>
    var hEventSelection: seq<int>
    /** The invariant-mass fills, in order. */
    var massFills: seq<MassFill>

    /** The counters and their histogram count non-increasing numbers of events per step. */
    ghost predicate Valid()
      reads this, evselstats
    {
      evselstats.Length == kEvSelAllSteps
      && evselstats[kEvSelAll] >= evselstats[kEvSelBool] >= evselstats[kEvSelVtxZ] >= 0
      && |hEventSelection| == kEventSelectionBins
      && hEventSelection[kEvSelAll] >= hEventSelection[kEvSelBool] >= hEventSelection[kEvSelVtxZ] >= 0
      && (forall b :: kEvSelAllSteps <= b < kEventSelectionBins ==> hEventSelection[b] == 0)
    }

    /** `init`: the histogram and `resetCounters`. */
    constructor (cfg: StudyConfig)
      ensures Valid() && this.cfg == cfg
      ensures evselstats[..] == Zeros(kEvSelAllSteps)
      ensures hEventSelection == Zeros(kEventSelectionBins) && massFills == []
      ensures fresh(evselstats)
    {
      this.cfg := cfg;
      evselstats := new int[kEvSelAllSteps];
      hEventSelection := Zeros(kEventSelectionBins);
      massFills := [];
      new;
      ResetCounters();
    }

    /** `resetCounters`. */
    method ResetCounters()
      requires evselstats.Length == kEvSelAllSteps
      modifies evselstats
      ensures evselstats[..] == Zeros(kEvSelAllSteps)
    {
      var ii := 0;
      while ii < kEvSelAllSteps
        invariant 0 <= ii <= kEvSelAllSteps
        invariant forall j :: 0 <= j < ii ==> evselstats[j] == 0
      {
        evselstats[ii] := 0;
        ii := ii + 1;
      }
    }

    /** `fillHistos`: each counter is added, as a weight, to its bin. */
    method FillHistos()
      requires evselstats.Length == kEvSelAllSteps && |hEventSelection| == kEventSelectionBins
      modifies this`hEventSelection
      ensures hEventSelection == AddCounts(old(hEventSelection), evselstats[..])
    {
      ghost var h0 := hEventSelection;
      var ii := 0;
      while ii < kEvSelAllSteps
        invariant 0 <= ii <= kEvSelAllSteps
        invariant |hEventSelection| == kEventSelectionBins
        invariant forall b :: 0 <= b < kEventSelectionBins ==>
                    hEventSelection[b] == h0[b] + (if b < ii then evselstats[b] else 0)
      {
        hEventSelection := hEventSelection[ii := hEventSelection[ii] + evselstats[ii]];
        ii := ii + 1;
      }
    }

    /** The V0 loop of `processV0`. */
    method FillV0Masses(v0s: seq<StudyV0>)
      modifies this`massFills
      ensures massFills == old(massFills) + V0MassFills(cfg, v0s)
    {
      var i := 0;
      while i < |v0s|
        invariant 0 <= i <= |v0s|
        invariant massFills == old(massFills) + V0MassFills(cfg, v0s[..i])
      {
        assert v0s[..i + 1][..i] == v0s[..i];
        var f := V0MassFill(cfg, v0s[i]);
        if f.Some? {
          massFills := massFills + [f.value];
        }
        i := i + 1;
      }
      assert v0s[..i] == v0s;
    }

    /**
     * `processV0`: the event-selection counters grow step by step; an event
     * rejected by a cut keeps them and returns, an accepted event fills the
     * V0 masses, then adds the counters to the histogram and resets them.
     */
    method ProcessV0(col: EvSelCollision, v0s: seq<StudyV0>)
      requires Valid()
      modifies evselstats, this`hEventSelection, this`massFills
      ensures Valid()
      ensures EvSelReached(cfg, col) < kEvSelAllSteps ==>
                evselstats[..] == Bump(old(evselstats[..]), EvSelReached(cfg, col))
                && hEventSelection == old(hEventSelection) && massFills == old(massFills)
      ensures EvSelReached(cfg, col) == kEvSelAllSteps ==>
                evselstats[..] == Zeros(kEvSelAllSteps)
                && hEventSelection == AddCounts(old(hEventSelection), Bump(old(evselstats[..]), kEvSelAllSteps))
                && massFills == old(massFills) + V0MassFills(cfg, v0s)
    {
      evselstats[kEvSelAll] := evselstats[kEvSelAll] + 1;
      if cfg.eventSel8Selection && !col.sel8 {
        assert evselstats[..] == Bump(old(evselstats[..]), 1);
        return;
      }
      evselstats[kEvSelBool] := evselstats[kEvSelBool] + 1;
      if cfg.eventPosZSelection && Abs(col.posZ) > 10.0 {
        assert evselstats[..] == Bump(old(evselstats[..]), 2);
        return;
      }
      evselstats[kEvSelVtxZ] := evselstats[kEvSelVtxZ] + 1;
      assert evselstats[..] == Bump(old(evselstats[..]), 3);
      FillV0Masses(v0s);
      AddCountsKeepsOrder(hEventSelection, evselstats[..]);
      FillHistos();
      ResetCounters();
    }

    /** The cascade loop of `processCascade`, which returns at the first cascade without MC particle. */
    method FillCascadeMasses(cs: seq<StudyCascade>)
      modifies this`massFills
      ensures massFills == old(massFills) + CascadeMassFills(cfg, cs[..FirstWithoutMc(cs)])
    {
      var i := 0;
      while i < |cs|
        invariant 0 <= i <= FirstWithoutMc(cs)
        invariant massFills == old(massFills) + CascadeMassFills(cfg, cs[..i])
      {
        if !cs[i].hasMcParticle {
          return;
        }
        assert cs[..i + 1][..i] == cs[..i];
        var f := CascadeMassFill(cfg, cs[i]);
        if f.Some? {
          massFills := massFills + [f.value];
        }
        i := i + 1;
      }
    }

    /**
     * `processCascade`: the same event cuts without any counter, then the
     * cascade loop. The counters and their histogram are left alone.
     */
    method ProcessCascade(col: EvSelCollision, cs: seq<StudyCascade>)
      requires Valid()
      modifies this`massFills
      ensures Valid()
      ensures massFills == old(massFills) +
                (if EvSelReached(cfg, col) == kEvSelAllSteps then CascadeMassFills(cfg, cs[..FirstWithoutMc(cs)]) else [])
    {
      if cfg.eventSel8Selection && !col.sel8 {
        return;
      }
      if cfg.eventPosZSelection && Abs(col.posZ) > 10.0 {
        return;
      }
      FillCascadeMasses(cs);
    }
  }
}
