/**
 * The V0 builder of the label-builder workflow: a six-stage variant of the
 * single-strange builder that has no crossed-rows stage, takes the daughters'
 * DCA to the primary vertex from the track propagator, builds only the V0s
 * the preselector marked interesting, groups them per collision and can keep
 * an ITS-cluster histogram of the accepted daughters.
 */
module LabelBuilder {
  import opened StraCommon
  import opened AutoDetect
  import K = LambdaKzeroBuilder

  const kV0All := 0
  const kV0TPCrefit := 1
  const kV0DCAxy := 2
  const kV0DCADau := 3
  const kV0CosPA := 4
  const kV0Radius := 5
  const kNV0Steps := 6

  /** Bins of the ITS-cluster arrays and histograms. */
  const kItsBins := 10
  const kCriteriaBins := 10

  datatype BuilderConfig = BuilderConfig(
    createV0CovMats: int,
    useAutodetectMode: bool,
    dcanegtopv: real,
    dcapostopv: real,
    v0cospa: real,
    dcav0dau: real,
    v0radius: real,
    tpcrefit: int,
    dBzInput: real,
    useMatCorrType: int,
    doTrackQA: bool,
    doprocessRun2: bool,
    doprocessRun3: bool)

  const DefaultConfig := BuilderConfig(-1, true, 0.1, 0.1, 0.995, 1.0, 0.9, 0, -999.0, 0, false, false, true)

  /**
   * A row of the (tag-filtered) V0 table. `posDcaXY`/`negDcaXY` are the
   * transverse DCAs the propagator returns for the daughters with respect to
   * the V0's own collision.
   */
  datatype V0 = V0(globalIndex: int, posTrackId: int, negTrackId: int, collisionId: int,
                   pos: Track, neg: Track, posDcaXY: real, negDcaXY: real, fit: FitOutcome)

  /** A collision with what `initCCDB` reads for its bunch crossing. */
  datatype CollisionRow = CollisionRow(globalIndex: int, pv: Vec3, run: int,
                                       grpoNominalL3: Option<real>, grpmagL3Current: Option<real>)

  function Cuts(c: BuilderConfig): TopoCuts
  {
    TopoCuts(c.dcav0dau, c.v0cospa, c.v0radius)
  }

  /** Number of stage counters the candidate bumps. */
  function Reached(c: BuilderConfig, pv: Vec3, v: V0, geo: Geometry): (n: nat)
    ensures 1 <= n <= kNV0Steps
  {
    if c.tpcrefit != 0 && !(v.pos.hasTpcRefit && v.neg.hasTpcRefit) then 1
    else if Abs(v.posDcaXY) < c.dcapostopv || Abs(v.negDcaXY) < c.dcanegtopv then 2
    else 3 + TailBumps(Cuts(c), pv, v.fit, geo)
  }

  predicate ThrewAtFit(c: BuilderConfig, pv: Vec3, v: V0, geo: Geometry)
  {
    Reached(c, pv, v, geo) >= 3 && v.fit.Threw?
  }

  predicate PassesAllCuts(c: BuilderConfig, pv: Vec3, v: V0, geo: Geometry)
  {
    (c.tpcrefit == 0 || (v.pos.hasTpcRefit && v.neg.hasTpcRefit))
    && Abs(v.posDcaXY) >= c.dcapostopv && Abs(v.negDcaXY) >= c.dcanegtopv
    && v.fit.Fitted? && v.fit.nCand != 0
    && geo.sqrt(v.fit.chi2) <= c.dcav0dau
    && geo.cpa(pv, v.fit.vertex, Add(v.fit.posP, v.fit.negP)) >= c.v0cospa
    && geo.sqrtSumOfSquares(v.fit.vertex.x, v.fit.vertex.y) >= c.v0radius
  }

  /** Accepted exactly when every cut passes; it does not look at crossed rows at all. */
  lemma AcceptedIffAllCuts(c: BuilderConfig, pv: Vec3, v: V0, geo: Geometry)
    ensures Reached(c, pv, v, geo) == kNV0Steps <==> PassesAllCuts(c, pv, v, geo)
    ensures forall r: int :: Reached(c, pv, v.(pos := v.pos.(tpcNClsCrossedRows := r)), geo) == Reached(c, pv, v, geo)
  {
  }

  function CandidateAfter(prev: V0Candidate, c: BuilderConfig, pv: Vec3, v: V0, geo: Geometry): V0Candidate
  {
    if Reached(c, pv, v, geo) < 3 then prev
    else TailScratch(prev.(posDCAxy := v.posDcaXY, negDCAxy := v.negDcaXY), Cuts(c), pv, v.fit, geo)
  }

  function RowFor(v: V0, pv: Vec3, geo: Geometry): K.V0DataRow
    requires v.fit.Fitted?
  {
    K.V0DataRow(v.posTrackId, v.negTrackId, v.collisionId, v.globalIndex,
                FittedCandidate(v.posDcaXY, v.negDcaXY, pv, v.fit, geo))
  }

  function EmittedRows(c: BuilderConfig, pv: Vec3, v0s: seq<V0>, geo: Geometry): seq<K.V0DataRow>
  {
    if |v0s| == 0 then []
    else
      var v := v0s[|v0s| - 1];
      EmittedRows(c, pv, v0s[..|v0s| - 1], geo)
      + (if Reached(c, pv, v, geo) == kNV0Steps then [RowFor(v, pv, geo)] else [])
  }

  function CountReached(c: BuilderConfig, pv: Vec3, v0s: seq<V0>, geo: Geometry, i: nat): nat
  {
    if |v0s| == 0 then 0
    else CountReached(c, pv, v0s[..|v0s| - 1], geo, i) + (if Reached(c, pv, v0s[|v0s| - 1], geo) > i then 1 else 0)
  }

  function CountThrew(c: BuilderConfig, pv: Vec3, v0s: seq<V0>, geo: Geometry): nat
  {
    if |v0s| == 0 then 0
    else CountThrew(c, pv, v0s[..|v0s| - 1], geo) + (if ThrewAtFit(c, pv, v0s[|v0s| - 1], geo) then 1 else 0)
  }

  /** The ITS-cluster array after one candidate: a bump at `nCls` for an accepted one with QA on. */
  function ItsAfter(h: seq<int>, doTrackQA: bool, accepted: bool, nCls: nat): (r: seq<int>)
    requires |h| == kItsBins
    ensures |r| == kItsBins
  {
    if doTrackQA && accepted && nCls < kItsBins then h[nCls := h[nCls] + 1] else h
  }

  function Sum(s: seq<int>): int
  {
    if |s| == 0 then 0 else Sum(s[..|s| - 1]) + s[|s| - 1]
  }

  /** Bumping one bin raises the total by one. */
  lemma {:induction false} SumBump(s: seq<int>, j: nat)
    requires j < |s|
    ensures Sum(s[j := s[j] + 1]) == Sum(s) + 1
  {
    var t := s[j := s[j] + 1];
    if j == |s| - 1 {
      assert t[..|t| - 1] == s[..|s| - 1];
    } else {
      SumBump(s[..|s| - 1], j);
      assert t[..|t| - 1] == s[..|s| - 1][j := s[j] + 1];
    }
  }

  lemma {:induction false} SumZeros(n: nat)
    ensures Sum(Zeros(n)) == 0
  {
    if n > 0 {
      SumZeros(n - 1);
      assert Zeros(n)[..n - 1] == Zeros(n - 1);
    }
  }

  /** Each accepted candidate adds at most one entry to each ITS array, and only with QA on. */
  lemma ItsAfterBound(h: seq<int>, doTrackQA: bool, accepted: bool, nCls: nat)
    requires |h| == kItsBins
    ensures Sum(ItsAfter(h, doTrackQA, accepted, nCls)) == Sum(h) + (if doTrackQA && accepted && nCls < kItsBins then 1 else 0)
  {
    if doTrackQA && accepted && nCls < kItsBins {
      SumBump(h, nCls);
    }
  }

  predicate TwoProcessFlagsExclusive(c: BuilderConfig)
  {
    c.doprocessRun2 != c.doprocessRun3
  }

  function Autodetected(c: BuilderConfig, devs: seq<DeviceSpec>): BuilderConfig
  {
    if !c.useAutodetectMode then c
    else
      var t := Loosest(devs);
      c.(dcanegtopv := t.dcanegtopv, dcapostopv := t.dcapostopv, v0cospa := t.v0cospa,
         dcav0dau := t.dcav0dau, v0radius := t.v0radius,
         createV0CovMats := if CovsRequested(devs) then 1 else c.createV0CovMats)
  }

  /** The nominal field, in kG, of a solenoid current as the GRPMagField path reads it (before rounding). */
  function NominalField(l3Current: real): real
  {
    5.0 * l3Current / 30000.0
  }

  /**
   * The current the override path stores, as written: 30000 / (bz / 5). Its
   * nominal field is 25 / bz, not bz.
   */
  function L3CurrentAsWritten(bz: real): (cur: Option<real>)
    ensures cur.Some? <==> Abs(bz) > 0.00001
    ensures cur.Some? ==> NominalField(cur.value) * bz == 25.0
  {
    if Abs(bz) > 0.00001 then Some(30000.0 / (bz / 5.0)) else None
  }

  /** The current whose nominal field is `bz`, set under the same |bz| > 1e-5 guard. */
  function L3CurrentFor(bz: real): (cur: Option<real>)
    ensures cur.Some? <==> Abs(bz) > 0.00001
    ensures cur.Some? ==> NominalField(cur.value) == bz
  {
    if Abs(bz) > 0.00001 then Some(30000.0 * bz / 5.0) else None
  }

  /** As written the current only reproduces fields of 5 kG: a 2 kG override is read back as 12.5 kG. */
  lemma L3CurrentAsWrittenCounterexample()
    ensures L3CurrentAsWritten(2.0) == Some(75000.0)
    ensures NominalField(L3CurrentAsWritten(2.0).value) == 12.5
    ensures L3CurrentFor(2.0) == Some(12000.0)
    ensures NominalField(L3CurrentAsWritten(5.0).value) == 5.0
  {
  }

  /** As written the override field reads back unchanged exactly for |bz| = 5 kG. */
  lemma L3CurrentAsWrittenReadsBackOnlyAtFive(bz: real)
    requires Abs(bz) > 0.00001
    ensures NominalField(L3CurrentAsWritten(bz).value) == bz <==> bz == 5.0 || bz == -5.0
  {
    var f := NominalField(L3CurrentAsWritten(bz).value);
    assert f * bz == 25.0;
    if f == bz {
      assert (bz - 5.0) * (bz + 5.0) == 0.0;
      if bz != 5.0 {
        assert bz - 5.0 != 0.0;
        assert bz + 5.0 == 0.0;
      }
    }
    if bz == 5.0 {
      assert L3CurrentAsWritten(bz).value == 30000.0;
    } else if bz == -5.0 {
      assert L3CurrentAsWritten(bz).value == -30000.0;
    }
  }

  /** The V0s of the filtered table that belong to one collision, in table order (`sliceBy`). */
  function SliceOf(v0s: seq<V0>, collIdx: int): seq<V0>
  {
    if |v0s| == 0 then []
    else
      SliceOf(v0s[..|v0s| - 1], collIdx)
      + (if v0s[|v0s| - 1].collisionId == collIdx then [v0s[|v0s| - 1]] else [])
  }

  /** The V0s the preselector marked interesting (filter `isInteresting == true`). */
  function Interesting(v0s: seq<V0>, tags: seq<bool>): seq<V0>
    requires |tags| == |v0s|
  {
    if |v0s| == 0 then []
    else Interesting(v0s[..|v0s| - 1], tags[..|tags| - 1])
         + (if tags[|tags| - 1] then [v0s[|v0s| - 1]] else [])
  }

  /** A slice holds exactly the V0s of its collision. */
  lemma {:induction false} SliceOfSpec(v0s: seq<V0>, collIdx: int)
    ensures forall v :: v in SliceOf(v0s, collIdx) ==> v in v0s && v.collisionId == collIdx
    ensures forall v :: v in v0s && v.collisionId == collIdx ==> v in SliceOf(v0s, collIdx)
  {
    if |v0s| > 0 {
      SliceOfSpec(v0s[..|v0s| - 1], collIdx);
      assert v0s == v0s[..|v0s| - 1] + [v0s[|v0s| - 1]];
    }
  }

  /** Only V0s tagged interesting are built. */
  lemma {:induction false} InterestingSpec(v0s: seq<V0>, tags: seq<bool>)
    requires |tags| == |v0s|
    ensures forall x :: x in Interesting(v0s, tags) ==> exists i :: 0 <= i < |v0s| && v0s[i] == x && tags[i]
    ensures forall i :: 0 <= i < |v0s| && tags[i] ==> v0s[i] in Interesting(v0s, tags)
  {
    if |v0s| > 0 {
      var n := |v0s| - 1;
      InterestingSpec(v0s[..n], tags[..n]);
      forall x | x in Interesting(v0s, tags)
        ensures exists i :: 0 <= i < |v0s| && v0s[i] == x && tags[i]
      {
        if x in Interesting(v0s[..n], tags[..n]) {
          var i :| 0 <= i < n && v0s[..n][i] == x && tags[..n][i];
          assert v0s[i] == x && tags[i];
        } else {
          assert v0s[n] == x && tags[n];
        }
      }
      forall i | 0 <= i < |v0s| && tags[i] ensures v0s[i] in Interesting(v0s, tags) {
        if i < n {
          assert v0s[..n][i] == v0s[i] && tags[..n][i] == tags[i];
        }
      }
    }
  }

  /** Rows emitted for a sequence of collisions, each with its own slice of V0s. */
  function EmittedForCollisions(c: BuilderConfig, colls: seq<CollisionRow>, v0s: seq<V0>, geo: Geometry): seq<K.V0DataRow>
  {
    if |colls| == 0 then []
    else
      var last := colls[|colls| - 1];
      EmittedForCollisions(c, colls[..|colls| - 1], v0s, geo)
      + EmittedRows(c, last.pv, SliceOf(v0s, last.globalIndex), geo)
  }

  lemma CollisionsStep(c: BuilderConfig, colls: seq<CollisionRow>, v0s: seq<V0>, geo: Geometry, j: nat)
    requires j < |colls|
    ensures EmittedForCollisions(c, colls[..j + 1], v0s, geo)
            == EmittedForCollisions(c, colls[..j], v0s, geo) + EmittedRows(c, colls[j].pv, SliceOf(v0s, colls[j].globalIndex), geo)
  {
    assert colls[..j + 1][..j] == colls[..j];
  }

  /** Every emitted row comes from an accepted V0 of the collision that owns it. */
  lemma {:induction false} EmittedRowsAreAccepted(c: BuilderConfig, pv: Vec3, v0s: seq<V0>, geo: Geometry)
    ensures |EmittedRows(c, pv, v0s, geo)| == CountReached(c, pv, v0s, geo, kV0Radius)
    ensures forall r :: r in EmittedRows(c, pv, v0s, geo) ==>
              exists v :: v in v0s && r.v0Id == v.globalIndex && r.collisionId == v.collisionId
                          && PassesAllCuts(c, pv, v, geo)
  {
    if |v0s| > 0 {
      var p := v0s[..|v0s| - 1];
      var v := v0s[|v0s| - 1];
      EmittedRowsAreAccepted(c, pv, p, geo);
      assert forall x :: x in p ==> x in v0s;
      if Reached(c, pv, v, geo) == kNV0Steps {
        AcceptedIffAllCuts(c, pv, v, geo);
      }
    }
  }

  /** Rows are grouped by collision: every row carries the index of a collision that was processed. */
  lemma {:induction false} RowsBelongToProcessedCollisions(c: BuilderConfig, colls: seq<CollisionRow>, v0s: seq<V0>, geo: Geometry)
    ensures forall r :: r in EmittedForCollisions(c, colls, v0s, geo) ==>
              exists j :: 0 <= j < |colls| && r.collisionId == colls[j].globalIndex
  {
    if |colls| > 0 {
      var p := colls[..|colls| - 1];
      var last := colls[|colls| - 1];
      RowsBelongToProcessedCollisions(c, p, v0s, geo);
      EmittedRowsAreAccepted(c, last.pv, SliceOf(v0s, last.globalIndex), geo);
      SliceOfSpec(v0s, last.globalIndex);
      forall r | r in EmittedForCollisions(c, colls, v0s, geo)
        ensures exists j :: 0 <= j < |colls| && r.collisionId == colls[j].globalIndex
      {
        if r in EmittedForCollisions(c, p, v0s, geo) {
          var j :| 0 <= j < |p| && r.collisionId == p[j].globalIndex;
          assert colls[j] == p[j];
        } else {
          assert colls[|colls| - 1] == last;
        }
      }
    }
  }

  /** The stage counters after building `v0s`, one `Bump` per candidate. */
  function StatsAfter(s0: seq<int>, c: BuilderConfig, pv: Vec3, v0s: seq<V0>, geo: Geometry): seq<int>
  {
    if |v0s| == 0 then s0
    else Bump(StatsAfter(s0, c, pv, v0s[..|v0s| - 1], geo), Reached(c, pv, v0s[|v0s| - 1], geo))
  }

  /** Stage `i` of the counters grows by the number of candidates that got past it. */
  lemma {:induction false} StatsAfterCounts(s0: seq<int>, c: BuilderConfig, pv: Vec3, v0s: seq<V0>, geo: Geometry)
    ensures |StatsAfter(s0, c, pv, v0s, geo)| == |s0|
    ensures forall i :: 0 <= i < |s0| ==> StatsAfter(s0, c, pv, v0s, geo)[i] == s0[i] + CountReached(c, pv, v0s, geo, i)
  {
    if |v0s| > 0 {
      StatsAfterCounts(s0, c, pv, v0s[..|v0s| - 1], geo);
    }
  }

  /** The ITS cluster count of the daughter an array records: `positive` picks the positive one. */
  function DaughterCls(v: V0, positive: bool): nat
  {
    if positive then v.pos.itsNCls else v.neg.itsNCls
  }

  /** An ITS-cluster array after building `v0s`, one `ItsAfter` per candidate. */
  function ItsAfterBatch(h: seq<int>, c: BuilderConfig, pv: Vec3, v0s: seq<V0>, geo: Geometry, positive: bool): (r: seq<int>)
    requires |h| == kItsBins
    ensures |r| == kItsBins
  {
    if |v0s| == 0 then h
    else
      var v := v0s[|v0s| - 1];
      ItsAfter(ItsAfterBatch(h, c, pv, v0s[..|v0s| - 1], geo, positive), c.doTrackQA,
               Reached(c, pv, v, geo) == kNV0Steps, DaughterCls(v, positive))
  }

  /** The number of accepted candidates whose daughter has exactly `b` ITS clusters. */
  function CountAcceptedWithCls(c: BuilderConfig, pv: Vec3, v0s: seq<V0>, geo: Geometry, positive: bool, b: nat): nat
  {
    if |v0s| == 0 then 0
    else
      var v := v0s[|v0s| - 1];
      CountAcceptedWithCls(c, pv, v0s[..|v0s| - 1], geo, positive, b)
      + (if Reached(c, pv, v, geo) == kNV0Steps && DaughterCls(v, positive) == b then 1 else 0)
  }

  /**
   * With track QA on, bin `b` of an ITS array grows by the number of
   * accepted candidates whose daughter has `b` clusters; with QA off the
   * array does not change.
   */
  lemma {:induction false} ItsAfterBatchCounts(h: seq<int>, c: BuilderConfig, pv: Vec3, v0s: seq<V0>, geo: Geometry, positive: bool)
    requires |h| == kItsBins
    ensures forall b :: 0 <= b < kItsBins ==>
              ItsAfterBatch(h, c, pv, v0s, geo, positive)[b]
              == h[b] + (if c.doTrackQA then CountAcceptedWithCls(c, pv, v0s, geo, positive, b) else 0)
  {
    if |v0s| > 0 {
      ItsAfterBatchCounts(h, c, pv, v0s[..|v0s| - 1], geo, positive);
    }
  }

  lemma ItsBatchStep(h: seq<int>, c: BuilderConfig, pv: Vec3, v0s: seq<V0>, geo: Geometry, k: nat)
    requires |h| == kItsBins && k < |v0s|
    ensures forall positive: bool {:trigger ItsAfterBatch(h, c, pv, v0s[..k + 1], geo, positive)} ::
              ItsAfterBatch(h, c, pv, v0s[..k + 1], geo, positive)
              == ItsAfter(ItsAfterBatch(h, c, pv, v0s[..k], geo, positive), c.doTrackQA,
                          Reached(c, pv, v0s[k], geo) == kNV0Steps, DaughterCls(v0s[k], positive))
  {
    assert v0s[..k + 1][..k] == v0s[..k];
  }

  lemma PrefixStep(c: BuilderConfig, pv: Vec3, v0s: seq<V0>, geo: Geometry, k: nat)
    requires k < |v0s|
    ensures var n := Reached(c, pv, v0s[k], geo);
            && EmittedRows(c, pv, v0s[..k + 1], geo)
               == EmittedRows(c, pv, v0s[..k], geo) + (if n == kNV0Steps then [RowFor(v0s[k], pv, geo)] else [])
            && K.V0Ids(EmittedRows(c, pv, v0s[..k + 1], geo))
               == K.V0Ids(EmittedRows(c, pv, v0s[..k], geo)) + (if n == kNV0Steps then [v0s[k].globalIndex] else [])
            && CountThrew(c, pv, v0s[..k + 1], geo)
               == CountThrew(c, pv, v0s[..k], geo) + (if ThrewAtFit(c, pv, v0s[k], geo) then 1 else 0)
            && forall s0 :: StatsAfter(s0, c, pv, v0s[..k + 1], geo) == Bump(StatsAfter(s0, c, pv, v0s[..k], geo), n)
  {
    assert v0s[..k + 1][..k] == v0s[..k];
    var a := EmittedRows(c, pv, v0s[..k], geo);
    if Reached(c, pv, v0s[k], geo) == kNV0Steps {
      assert K.V0Ids(a + [RowFor(v0s[k], pv, geo)]) == K.V0Ids(a) + [v0s[k].globalIndex];
    } else {
      assert a + [] == a;
    }
  }

  class Builder {
    var cfg: BuilderConfig
    const v0stats: array<int>
    const posITSclu: array<int>
    const negITSclu: array<int>
    var exceptions: int
    var eventCounter: int
    var candidate: V0Candidate
    var mRunNumber: int
    var bz: real
    var fitterBz: real
    /** The L3 current handed to the propagator on the override path. */
    var l3Current: Option<real>
    var matCorr: K.MatCorr
    var v0data: seq<K.V0DataRow>
    var v0covs: seq<int>
    var hEventCounter: int
    var hCaughtExceptions: int
    var hV0Criteria: seq<int>
    var hPositiveITSClusters: seq<int>
    var hNegativeITSClusters: seq<int>

    /** Stage counters non-increasing, and exceptions among the candidates lost at the fit. */
    ghost predicate Counters()
      reads this`exceptions, this`eventCounter, v0stats
    {
      v0stats.Length == kNV0Steps && posITSclu.Length == kItsBins && negITSclu.Length == kItsBins
      && posITSclu != negITSclu && v0stats != posITSclu && v0stats != negITSclu
      && StageCounts(v0stats[..], exceptions, kV0DCAxy) && eventCounter >= 0
    }

    /** Every ITS entry is an accepted daughter. */
    ghost predicate ItsBounded()
      reads v0stats, posITSclu, negITSclu
    {
      v0stats.Length == kNV0Steps
      && Sum(posITSclu[..]) <= v0stats[kV0Radius] && Sum(negITSclu[..]) <= v0stats[kV0Radius]
    }

    /** The criteria histogram keeps the stage-counter invariant. */
    ghost predicate HistoCriteria()
      reads this`hEventCounter, this`hCaughtExceptions, this`hV0Criteria
    {
      |hV0Criteria| == kCriteriaBins && StageCounts(hV0Criteria[..kNV0Steps], hCaughtExceptions, kV0DCAxy)
      && hEventCounter >= 0
    }

    ghost predicate HistoIts()
      reads this`hPositiveITSClusters, this`hNegativeITSClusters
    {
      |hPositiveITSClusters| == kItsBins && |hNegativeITSClusters| == kItsBins
    }

    /** The registry and histogram invariant. */
    ghost predicate Valid()
      reads this`exceptions, this`eventCounter, this`hEventCounter, this`hCaughtExceptions, this`hV0Criteria
      reads this`hPositiveITSClusters, this`hNegativeITSClusters, v0stats, posITSclu, negITSclu
    {
      Counters() && ItsBounded() && HistoCriteria() && HistoIts()
    }

    constructor (config: BuilderConfig)
      ensures Valid() && fresh(v0stats) && fresh(posITSclu) && fresh(negITSclu)
      ensures cfg == config && v0data == [] && v0covs == []
    {
      cfg := config;
      v0stats := new int[kNV0Steps](_ => 0);
      posITSclu := new int[kItsBins](_ => 0);
      negITSclu := new int[kItsBins](_ => 0);
      exceptions, eventCounter := 0, 0;
      candidate := EmptyCandidate;
      mRunNumber, bz, fitterBz := 0, 0.0, 0.0;
      l3Current := None;
      matCorr := K.MatCorrNone;
      v0data, v0covs := [], [];
      hEventCounter, hCaughtExceptions := 0, 0;
      hV0Criteria := Zeros(kCriteriaBins);
      hPositiveITSClusters, hNegativeITSClusters := Zeros(kItsBins), Zeros(kItsBins);
      new;
      assert v0stats[..] == Zeros(kNV0Steps);
      assert posITSclu[..] == Zeros(kItsBins) && negITSclu[..] == Zeros(kItsBins);
      SumZeros(kItsBins);
    }

    /** `resetHistos`. */
    method ResetHistos()
      requires Valid()
      modifies this`exceptions, this`eventCounter, v0stats, posITSclu, negITSclu
      ensures Valid()
      ensures v0stats[..] == Zeros(kNV0Steps) && exceptions == 0 && eventCounter == 0
      ensures posITSclu[..] == Zeros(kItsBins) && negITSclu[..] == Zeros(kItsBins)
    {
      exceptions := 0;
      eventCounter := 0;
      var ii := 0;
      while ii < kNV0Steps
        invariant 0 <= ii <= kNV0Steps
        invariant exceptions == 0 && eventCounter == 0
        invariant forall j :: 0 <= j < ii ==> v0stats[j] == 0
      {
        v0stats[ii] := 0;
        ii := ii + 1;
      }
      ii := 0;
      while ii < kItsBins
        invariant 0 <= ii <= kItsBins
        invariant exceptions == 0 && eventCounter == 0
        invariant forall j :: 0 <= j < kNV0Steps ==> v0stats[j] == 0
        invariant forall j :: 0 <= j < ii ==> posITSclu[j] == 0 && negITSclu[j] == 0
      {
        posITSclu[ii] := 0;
        negITSclu[ii] := 0;
        ii := ii + 1;
      }
      assert v0stats[..] == Zeros(kNV0Steps);
      assert posITSclu[..] == Zeros(kItsBins) && negITSclu[..] == Zeros(kItsBins);
      SumZeros(kItsBins);
      assert StageCounts(v0stats[..], exceptions, kV0DCAxy);
    }

    /** `fillHistos`: the ITS histograms are filled only with track QA on. */
    method FillHistos()
      requires Valid()
      modifies this`hEventCounter, this`hCaughtExceptions, this`hV0Criteria
      modifies this`hPositiveITSClusters, this`hNegativeITSClusters
      ensures Valid()
      ensures hEventCounter == old(hEventCounter) + eventCounter
      ensures hCaughtExceptions == old(hCaughtExceptions) + exceptions
      ensures |hV0Criteria| == kCriteriaBins
      ensures forall i :: 0 <= i < kCriteriaBins ==>
                hV0Criteria[i] == old(hV0Criteria[i]) + (if i < kNV0Steps then v0stats[i] else 0)
      ensures forall i :: 0 <= i < kItsBins ==>
                hPositiveITSClusters[i] == old(hPositiveITSClusters[i]) + (if cfg.doTrackQA then posITSclu[i] else 0)
                && hNegativeITSClusters[i] == old(hNegativeITSClusters[i]) + (if cfg.doTrackQA then negITSclu[i] else 0)
    {
      FillCriteria();
      if cfg.doTrackQA {
        FillIts();
      }
    }

    /** The event, exception and stage-counter part of `fillHistos`. */
    method FillCriteria()
      requires Counters() && HistoCriteria()
      modifies this`hEventCounter, this`hCaughtExceptions, this`hV0Criteria
      ensures HistoCriteria()
      ensures hEventCounter == old(hEventCounter) + eventCounter
      ensures hCaughtExceptions == old(hCaughtExceptions) + exceptions
      ensures forall i :: 0 <= i < kCriteriaBins ==>
                hV0Criteria[i] == old(hV0Criteria[i]) + (if i < kNV0Steps then v0stats[i] else 0)
    {
      hEventCounter := hEventCounter + eventCounter;
      hCaughtExceptions := hCaughtExceptions + exceptions;
      ghost var h0 := hV0Criteria;
      ghost var vs := v0stats[..];
      var ii := 0;
      while ii < kNV0Steps
        invariant 0 <= ii <= kNV0Steps
        invariant hEventCounter == old(hEventCounter) + eventCounter
        invariant hCaughtExceptions == old(hCaughtExceptions) + exceptions
        invariant |hV0Criteria| == kCriteriaBins
        invariant forall j :: 0 <= j < kCriteriaBins ==>
                    hV0Criteria[j] == h0[j] + (if j < ii then v0stats[j] else 0)
      {
        hV0Criteria := hV0Criteria[ii := hV0Criteria[ii] + v0stats[ii]];
        ii := ii + 1;
      }
      ghost var h7 := h0[..kNV0Steps];
      StageCountsAdd(h7, old(hCaughtExceptions), vs, exceptions, kV0DCAxy);
      assert hV0Criteria[..kNV0Steps] == seq(kNV0Steps, i requires 0 <= i < kNV0Steps => h7[i] + vs[i]);
    }

    /** The ITS-cluster part of `fillHistos`. */
    method FillIts()
      requires posITSclu.Length == kItsBins && negITSclu.Length == kItsBins && HistoIts()
      modifies this`hPositiveITSClusters, this`hNegativeITSClusters
      ensures HistoIts()
      ensures forall i :: 0 <= i < kItsBins ==>
                hPositiveITSClusters[i] == old(hPositiveITSClusters[i]) + posITSclu[i]
                && hNegativeITSClusters[i] == old(hNegativeITSClusters[i]) + negITSclu[i]
    {
      var ii := 0;
      while ii < kItsBins
        invariant 0 <= ii <= kItsBins
        invariant |hPositiveITSClusters| == kItsBins && |hNegativeITSClusters| == kItsBins
        invariant forall j :: 0 <= j < kItsBins ==>
                    hPositiveITSClusters[j] == old(hPositiveITSClusters[j]) + (if j < ii then posITSclu[j] else 0)
                    && hNegativeITSClusters[j] == old(hNegativeITSClusters[j]) + (if j < ii then negITSclu[j] else 0)
      {
        hPositiveITSClusters := hPositiveITSClusters[ii := hPositiveITSClusters[ii] + posITSclu[ii]];
        hNegativeITSClusters := hNegativeITSClusters[ii := hNegativeITSClusters[ii] + negITSclu[ii]];
        ii := ii + 1;
      }
    }

    /** `init`: fatal unless exactly one of processRun2/processRun3 is on; then the self-configuration. */
    method Init(devs: seq<DeviceSpec>) returns (ok: bool)
      requires Valid()
      modifies this`cfg, this`mRunNumber, this`bz, this`matCorr, this`exceptions, this`eventCounter
      modifies v0stats, posITSclu, negITSclu
      ensures Valid()
      ensures ok <==> TwoProcessFlagsExclusive(old(cfg))
      ensures v0stats[..] == Zeros(kNV0Steps) && exceptions == 0 && eventCounter == 0
      ensures posITSclu[..] == Zeros(kItsBins) && negITSclu[..] == Zeros(kItsBins)
      ensures mRunNumber == 0 && bz == 0.0
      ensures ok ==> cfg == Autodetected(old(cfg), devs) && matCorr == K.MatCorrFor(cfg.useMatCorrType)
      ensures !ok ==> cfg == old(cfg)
    {
      ResetHistos();
      ok := Configure(devs);
    }

    /** The part of `init` after the counter reset. */
    method Configure(devs: seq<DeviceSpec>) returns (ok: bool)
      modifies this`cfg, this`mRunNumber, this`bz, this`matCorr
      ensures ok <==> TwoProcessFlagsExclusive(old(cfg))
      ensures mRunNumber == 0 && bz == 0.0
      ensures ok ==> cfg == Autodetected(old(cfg), devs) && matCorr == K.MatCorrFor(cfg.useMatCorrType)
      ensures !ok ==> cfg == old(cfg)
    {
      mRunNumber := 0;
      bz := 0.0;
      if !cfg.doprocessRun2 && !cfg.doprocessRun3 {
        return false;
      }
      if cfg.doprocessRun2 && cfg.doprocessRun3 {
        return false;
      }
      ok := true;
      if cfg.useAutodetectMode {
        var t, covs := Negotiate(devs);
        if covs {
          cfg := cfg.(createV0CovMats := 1);
        }
        cfg := cfg.(dcanegtopv := t.dcanegtopv, dcapostopv := t.dcapostopv, v0cospa := t.v0cospa,
                    dcav0dau := t.dcav0dau, v0radius := t.v0radius);
      }
      matCorr := K.MatCorrFor(cfg.useMatCorrType);
    }

    /**
     * `initCCDB`: nothing on an unchanged run; an explicit field (`d_bz > -990`)
     * needs no conditions object; otherwise the GRP object, then the
     * GRPMagField current. `ok` false stands for the fatal log.
     */
    method InitCcdb(run: int, grpoNominalL3: Option<real>, grpmagL3Current: Option<real>) returns (ok: bool)
      requires Valid()
      modifies this`bz, this`mRunNumber, this`fitterBz, this`l3Current
      ensures Valid()
      ensures old(mRunNumber) == run ==>
                ok && mRunNumber == run && bz == old(bz) && fitterBz == old(fitterBz) && l3Current == old(l3Current)
      ensures old(mRunNumber) != run && cfg.dBzInput > -990.0 ==>
                ok && bz == cfg.dBzInput && fitterBz == bz && l3Current == L3CurrentAsWritten(bz) && mRunNumber == run
      ensures old(mRunNumber) != run && cfg.dBzInput <= -990.0 ==>
                l3Current == old(l3Current)
                && ok == (grpoNominalL3.Some? || grpmagL3Current.Some?)
                && (ok ==> mRunNumber == run && fitterBz == bz
                           && bz == (if grpoNominalL3.Some? then grpoNominalL3.value
                                     else LRound(NominalField(grpmagL3Current.value)) as real))
                && (!ok ==> mRunNumber == old(mRunNumber))
    {
      if mRunNumber == run {
        return true;
      }
      if cfg.dBzInput > -990.0 {
        bz := cfg.dBzInput;
        fitterBz := bz;
        l3Current := L3CurrentAsWritten(bz);
        mRunNumber := run;
        return true;
      }
      if grpoNominalL3.Some? {
        bz := grpoNominalL3.value;
      } else {
        if grpmagL3Current.None? {
          return false;
        }
        bz := LRound(NominalField(grpmagL3Current.value)) as real;
      }
      mRunNumber := run;
      fitterBz := bz;
      ok := true;
    }

    /** `buildV0Candidate`: the six-stage selection, then the ITS QA of an accepted candidate. */
    method BuildV0Candidate(pv: Vec3, v: V0, geo: Geometry) returns (ok: bool)
      requires Valid()
      modifies this`exceptions, this`candidate, v0stats, posITSclu, negITSclu
      ensures Valid()
      ensures v0stats[..] == Bump(old(v0stats[..]), Reached(cfg, pv, v, geo))
      ensures ok <==> Reached(cfg, pv, v, geo) == kNV0Steps
      ensures exceptions == old(exceptions) + (if ThrewAtFit(cfg, pv, v, geo) then 1 else 0)
      ensures candidate == CandidateAfter(old(candidate), cfg, pv, v, geo)
      ensures posITSclu[..] == ItsAfter(old(posITSclu[..]), cfg.doTrackQA, ok, v.pos.itsNCls)
      ensures negITSclu[..] == ItsAfter(old(negITSclu[..]), cfg.doTrackQA, ok, v.neg.itsNCls)
    {
      ghost var s0 := v0stats[..];
      ghost var k := Reached(cfg, pv, v, geo);
      BumpKeepsStageCounts(s0, exceptions, kV0DCAxy, k, ThrewAtFit(cfg, pv, v, geo));
      ghost var p0, n0 := posITSclu[..], negITSclu[..];
      ok := StagesBeforeFit(pv, v, geo, s0, k);
      if !ok {
        return;
      }
      candidate := candidate.(posDCAxy := v.posDcaXY, negDCAxy := v.negDcaXY);
      ok := FitTail(pv, v.fit, geo, s0, k);
      assert posITSclu[..] == p0 && negITSclu[..] == n0;
      if ok {
        TrackQa(v.pos.itsNCls, v.neg.itsNCls);
      }
    }

    /** The counters of the two stages before the fit: `ok` when both pass. */
    method StagesBeforeFit(pv: Vec3, v: V0, geo: Geometry, ghost s0: seq<int>, ghost k: nat) returns (ok: bool)
      requires Valid() && v0stats[..] == s0
      requires k == Reached(cfg, pv, v, geo)
      requires StageCounts(Bump(s0, k), exceptions, kV0DCAxy)
      modifies v0stats
      ensures ok <==> k >= 3
      ensures ok ==> v0stats[..] == Bump(s0, 3)
      ensures !ok ==> v0stats[..] == Bump(s0, k) && Valid()
    {
      v0stats[kV0All] := v0stats[kV0All] + 1;
      if cfg.tpcrefit != 0 {
        if !v.pos.hasTpcRefit || !v.neg.hasTpcRefit {
          assert v0stats[..] == Bump(s0, k);
          return false;
        }
      }
      v0stats[kV0TPCrefit] := v0stats[kV0TPCrefit] + 1;
      if Abs(v.posDcaXY) < cfg.dcapostopv || Abs(v.negDcaXY) < cfg.dcanegtopv {
        assert v0stats[..] == Bump(s0, k);
        return false;
      }
      v0stats[kV0DCAxy] := v0stats[kV0DCAxy] + 1;
      assert v0stats[..] == Bump(s0, 3);
      ok := true;
    }

    /** The ITS-cluster bookkeeping of an accepted candidate. */
    method TrackQa(posNCls: nat, negNCls: nat)
      requires Counters() && HistoCriteria() && HistoIts()
      requires Sum(posITSclu[..]) < v0stats[kV0Radius] && Sum(negITSclu[..]) < v0stats[kV0Radius]
      modifies posITSclu, negITSclu
      ensures Valid()
      ensures posITSclu[..] == ItsAfter(old(posITSclu[..]), cfg.doTrackQA, true, posNCls)
      ensures negITSclu[..] == ItsAfter(old(negITSclu[..]), cfg.doTrackQA, true, negNCls)
    {
      ItsAfterBound(posITSclu[..], cfg.doTrackQA, true, posNCls);
      ItsAfterBound(negITSclu[..], cfg.doTrackQA, true, negNCls);
      if cfg.doTrackQA {
        if posNCls < kItsBins {
          posITSclu[posNCls] := posITSclu[posNCls] + 1;
        }
        if negNCls < kItsBins {
          negITSclu[negNCls] := negITSclu[negNCls] + 1;
        }
      }
      assert posITSclu[..] == ItsAfter(old(posITSclu[..]), cfg.doTrackQA, true, posNCls);
      assert negITSclu[..] == ItsAfter(old(negITSclu[..]), cfg.doTrackQA, true, negNCls);
    }

    /** From the fitter call to the radius cut. */
    method FitTail(pv: Vec3, fit: FitOutcome, geo: Geometry, ghost s0: seq<int>, ghost k: nat) returns (ok: bool)
      requires v0stats.Length == kNV0Steps && |s0| == kNV0Steps
      requires k == 3 + TailBumps(Cuts(cfg), pv, fit, geo)
      requires v0stats[..] == Bump(s0, 3)
      modifies this`exceptions, this`candidate, v0stats
      ensures v0stats[..] == Bump(s0, k)
      ensures ok <==> k == kNV0Steps
      ensures exceptions == old(exceptions) + (if fit.Threw? then 1 else 0)
      ensures candidate == TailScratch(old(candidate), Cuts(cfg), pv, fit, geo)
    {
      if fit.Threw? {
        exceptions := exceptions + 1;
        assert v0stats[..] == Bump(s0, k);
        return false;
      }
      if fit.nCand == 0 {
        assert v0stats[..] == Bump(s0, k);
        return false;
      }
      candidate := candidate.(posTrackX := fit.posTrackX, negTrackX := fit.negTrackX,
                              posP := fit.posP, negP := fit.negP, pos := fit.vertex);
      candidate := candidate.(dcaV0dau := geo.sqrt(fit.chi2));
      if candidate.dcaV0dau > cfg.dcav0dau {
        assert v0stats[..] == Bump(s0, k);
        return false;
      }
      v0stats[kV0DCADau] := v0stats[kV0DCADau] + 1;
      candidate := candidate.(cosPA := geo.cpa(pv, candidate.pos, Add(candidate.posP, candidate.negP)));
      if candidate.cosPA < cfg.v0cospa {
        assert v0stats[..] == Bump(s0, k);
        return false;
      }
      v0stats[kV0CosPA] := v0stats[kV0CosPA] + 1;
      candidate := candidate.(v0radius := geo.sqrtSumOfSquares(candidate.pos.x, candidate.pos.y));
      if candidate.v0radius < cfg.v0radius {
        assert v0stats[..] == Bump(s0, k);
        return false;
      }
      v0stats[kV0Radius] := v0stats[kV0Radius] + 1;
      assert v0stats[..] == Bump(s0, k);
      ok := true;
    }

    /** One iteration of the table loop. */
    method BuildAndEmit(pv: Vec3, v: V0, geo: Geometry)
      requires Valid()
      modifies this`exceptions, this`candidate, this`v0data, this`v0covs, v0stats, posITSclu, negITSclu
      ensures Valid()
      ensures v0stats[..] == Bump(old(v0stats[..]), Reached(cfg, pv, v, geo))
      ensures exceptions == old(exceptions) + (if ThrewAtFit(cfg, pv, v, geo) then 1 else 0)
      ensures v0data == old(v0data) + (if Reached(cfg, pv, v, geo) == kNV0Steps then [RowFor(v, pv, geo)] else [])
      ensures v0covs == old(v0covs) + (if Reached(cfg, pv, v, geo) == kNV0Steps && cfg.createV0CovMats != 0
                                       then [v.globalIndex] else [])
      ensures posITSclu[..] == ItsAfter(old(posITSclu[..]), cfg.doTrackQA, Reached(cfg, pv, v, geo) == kNV0Steps, v.pos.itsNCls)
      ensures negITSclu[..] == ItsAfter(old(negITSclu[..]), cfg.doTrackQA, Reached(cfg, pv, v, geo) == kNV0Steps, v.neg.itsNCls)
    {
      var valid := BuildV0Candidate(pv, v, geo);
      if valid {
        AcceptedScratchIsFresh(old(candidate), v.posDcaXY, v.negDcaXY, Cuts(cfg), pv, v.fit, geo);
        v0data := v0data + [K.V0DataRow(v.posTrackId, v.negTrackId, v.collisionId, v.globalIndex, candidate)];
        if cfg.createV0CovMats != 0 {
          v0covs := v0covs + [v.globalIndex];
        }
      }
    }

    /** The table loop of `buildStrangenessTables`. */
    method BuildAll(pv: Vec3, v0s: seq<V0>, geo: Geometry)
      requires Valid()
      modifies this`exceptions, this`candidate, this`v0data, this`v0covs, v0stats, posITSclu, negITSclu
      ensures Valid()
      ensures v0stats[..] == StatsAfter(old(v0stats[..]), cfg, pv, v0s, geo)
      ensures forall i :: 0 <= i < kNV0Steps ==> v0stats[i] == old(v0stats[i]) + CountReached(cfg, pv, v0s, geo, i)
      ensures exceptions == old(exceptions) + CountThrew(cfg, pv, v0s, geo)
      ensures v0data == old(v0data) + EmittedRows(cfg, pv, v0s, geo)
      ensures v0covs == old(v0covs) + (if cfg.createV0CovMats != 0 then K.V0Ids(EmittedRows(cfg, pv, v0s, geo)) else [])
      ensures posITSclu[..] == ItsAfterBatch(old(posITSclu[..]), cfg, pv, v0s, geo, true)
      ensures negITSclu[..] == ItsAfterBatch(old(negITSclu[..]), cfg, pv, v0s, geo, false)
    {
      ghost var s0 := v0stats[..];
      ghost var p0, n0 := posITSclu[..], negITSclu[..];
      var k := 0;
      while k < |v0s|
        invariant 0 <= k <= |v0s|
        invariant Valid()
        invariant v0stats[..] == StatsAfter(s0, cfg, pv, v0s[..k], geo)
        invariant exceptions == old(exceptions) + CountThrew(cfg, pv, v0s[..k], geo)
        invariant v0data == old(v0data) + EmittedRows(cfg, pv, v0s[..k], geo)
        invariant v0covs == old(v0covs) + (if cfg.createV0CovMats != 0 then K.V0Ids(EmittedRows(cfg, pv, v0s[..k], geo)) else [])
        invariant posITSclu[..] == ItsAfterBatch(p0, cfg, pv, v0s[..k], geo, true)
        invariant negITSclu[..] == ItsAfterBatch(n0, cfg, pv, v0s[..k], geo, false)
      {
        BuildPrefixStep(pv, v0s, geo, k, s0, old(exceptions), old(v0data), old(v0covs), p0, n0);
        k := k + 1;
      }
      assert v0s[..k] == v0s;
      StatsAfterCounts(s0, cfg, pv, v0s, geo);
    }

    /** One turn of the table loop, stated as the passage from the prefix v0s[..k] to v0s[..k + 1]. */
    method BuildPrefixStep(pv: Vec3, v0s: seq<V0>, geo: Geometry, k: nat,
                           ghost s0: seq<int>, ghost e0: int, ghost d0: seq<K.V0DataRow>, ghost c0: seq<int>,
                           ghost p0: seq<int>, ghost n0: seq<int>)
      requires Valid() && k < |v0s| && |p0| == kItsBins && |n0| == kItsBins
      requires v0stats[..] == StatsAfter(s0, cfg, pv, v0s[..k], geo)
      requires exceptions == e0 + CountThrew(cfg, pv, v0s[..k], geo)
      requires v0data == d0 + EmittedRows(cfg, pv, v0s[..k], geo)
      requires v0covs == c0 + (if cfg.createV0CovMats != 0 then K.V0Ids(EmittedRows(cfg, pv, v0s[..k], geo)) else [])
      requires posITSclu[..] == ItsAfterBatch(p0, cfg, pv, v0s[..k], geo, true)
      requires negITSclu[..] == ItsAfterBatch(n0, cfg, pv, v0s[..k], geo, false)
      modifies this`exceptions, this`candidate, this`v0data, this`v0covs, v0stats, posITSclu, negITSclu
      ensures Valid()
      ensures v0stats[..] == StatsAfter(s0, cfg, pv, v0s[..k + 1], geo)
      ensures exceptions == e0 + CountThrew(cfg, pv, v0s[..k + 1], geo)
      ensures v0data == d0 + EmittedRows(cfg, pv, v0s[..k + 1], geo)
      ensures v0covs == c0 + (if cfg.createV0CovMats != 0 then K.V0Ids(EmittedRows(cfg, pv, v0s[..k + 1], geo)) else [])
      ensures posITSclu[..] == ItsAfterBatch(p0, cfg, pv, v0s[..k + 1], geo, true)
      ensures negITSclu[..] == ItsAfterBatch(n0, cfg, pv, v0s[..k + 1], geo, false)
    {
      PrefixStep(cfg, pv, v0s, geo, k);
      ItsBatchStep(p0, cfg, pv, v0s, geo, k);
      ItsBatchStep(n0, cfg, pv, v0s, geo, k);
      BuildAndEmit(pv, v0s[k], geo);
    }

    /** `buildStrangenessTables` for the V0 slice of one collision. */
    method BuildStrangenessTables(pv: Vec3, v0s: seq<V0>, geo: Geometry)
      requires Valid()
      modifies this`eventCounter, this`exceptions, this`candidate, this`v0data, this`v0covs
      modifies this`hEventCounter, this`hCaughtExceptions, this`hV0Criteria
      modifies this`hPositiveITSClusters, this`hNegativeITSClusters, v0stats, posITSclu, negITSclu
      ensures Valid()
      ensures v0data == old(v0data) + EmittedRows(cfg, pv, v0s, geo)
      ensures v0covs == old(v0covs) + (if cfg.createV0CovMats != 0 then K.V0Ids(EmittedRows(cfg, pv, v0s, geo)) else [])
      ensures hEventCounter == old(hEventCounter) + old(eventCounter) + 1
      ensures hCaughtExceptions == old(hCaughtExceptions) + old(exceptions) + CountThrew(cfg, pv, v0s, geo)
      ensures |hV0Criteria| == kCriteriaBins
      ensures forall i :: 0 <= i < kNV0Steps ==>
                hV0Criteria[i] == old(hV0Criteria[i]) + old(v0stats[i]) + CountReached(cfg, pv, v0s, geo, i)
      ensures forall i :: 0 <= i < kItsBins ==>
                hPositiveITSClusters[i] == old(hPositiveITSClusters[i])
                  + (if cfg.doTrackQA then ItsAfterBatch(old(posITSclu[..]), cfg, pv, v0s, geo, true)[i] else 0)
                && hNegativeITSClusters[i] == old(hNegativeITSClusters[i])
                  + (if cfg.doTrackQA then ItsAfterBatch(old(negITSclu[..]), cfg, pv, v0s, geo, false)[i] else 0)
      ensures v0stats[..] == Zeros(kNV0Steps) && exceptions == 0 && eventCounter == 0
      ensures posITSclu[..] == Zeros(kItsBins) && negITSclu[..] == Zeros(kItsBins)
    {
      eventCounter := eventCounter + 1;
      BuildAndFill(pv, v0s, geo);
      ResetHistos();
    }

    /** The table loop of `buildStrangenessTables` followed by `fillHistos`. */
    method BuildAndFill(pv: Vec3, v0s: seq<V0>, geo: Geometry)
      requires Valid()
      modifies this`exceptions, this`candidate, this`v0data, this`v0covs
      modifies this`hEventCounter, this`hCaughtExceptions, this`hV0Criteria
      modifies this`hPositiveITSClusters, this`hNegativeITSClusters, v0stats, posITSclu, negITSclu
      ensures Valid()
      ensures v0data == old(v0data) + EmittedRows(cfg, pv, v0s, geo)
      ensures v0covs == old(v0covs) + (if cfg.createV0CovMats != 0 then K.V0Ids(EmittedRows(cfg, pv, v0s, geo)) else [])
      ensures hEventCounter == old(hEventCounter) + eventCounter
      ensures hCaughtExceptions == old(hCaughtExceptions) + old(exceptions) + CountThrew(cfg, pv, v0s, geo)
      ensures |hV0Criteria| == kCriteriaBins
      ensures forall i :: 0 <= i < kNV0Steps ==>
                hV0Criteria[i] == old(hV0Criteria[i]) + old(v0stats[i]) + CountReached(cfg, pv, v0s, geo, i)
      ensures forall i :: 0 <= i < kItsBins ==>
                hPositiveITSClusters[i] == old(hPositiveITSClusters[i])
                  + (if cfg.doTrackQA then ItsAfterBatch(old(posITSclu[..]), cfg, pv, v0s, geo, true)[i] else 0)
                && hNegativeITSClusters[i] == old(hNegativeITSClusters[i])
                  + (if cfg.doTrackQA then ItsAfterBatch(old(negITSclu[..]), cfg, pv, v0s, geo, false)[i] else 0)
    {
      BuildAll(pv, v0s, geo);
      FillHistos();
    }

    /**
     * `processRun2` / `processRun3`: for each collision in turn, the field
     * set-up for its run and the build of its slice of interesting V0s.
     * `ok` false: a run without conditions objects ended the job.
     */
    method Process(colls: seq<CollisionRow>, v0s: seq<V0>, tags: seq<bool>, geo: Geometry) returns (ok: bool)
      requires Valid()
      requires |tags| == |v0s|
      modifies this, v0stats, posITSclu, negITSclu
      ensures Valid()
      ensures cfg == old(cfg)
      ensures ok ==> v0data == old(v0data) + EmittedForCollisions(cfg, colls, Interesting(v0s, tags), geo)
      ensures ok && |colls| > 0 ==> mRunNumber == colls[|colls| - 1].run
      ensures !ok ==> (cfg.dBzInput <= -990.0 &&
                       exists j :: 0 <= j < |colls| && colls[j].grpoNominalL3.None? && colls[j].grpmagL3Current.None?)
    {
      var selected := Interesting(v0s, tags);
      var j := 0;
      while j < |colls|
        invariant 0 <= j <= |colls|
        invariant Valid()
        invariant cfg == old(cfg)
        invariant v0data == old(v0data) + EmittedForCollisions(cfg, colls[..j], selected, geo)
        invariant j > 0 ==> mRunNumber == colls[j - 1].run
      {
        ok := ProcessPrefixStep(colls, selected, geo, j, old(v0data));
        if !ok {
          return;
        }
        j := j + 1;
      }
      assert colls[..j] == colls;
      ok := true;
    }

    /** One turn of the collision loop, stated as the passage from colls[..j] to colls[..j + 1]. */
    method ProcessPrefixStep(colls: seq<CollisionRow>, selected: seq<V0>, geo: Geometry, j: nat,
                             ghost d0: seq<K.V0DataRow>) returns (ok: bool)
      requires Valid() && j < |colls|
      requires v0data == d0 + EmittedForCollisions(cfg, colls[..j], selected, geo)
      modifies this, v0stats, posITSclu, negITSclu
      ensures Valid()
      ensures cfg == old(cfg)
      ensures ok ==> v0data == d0 + EmittedForCollisions(cfg, colls[..j + 1], selected, geo) && mRunNumber == colls[j].run
      ensures !ok ==> cfg.dBzInput <= -990.0 && colls[j].grpoNominalL3.None? && colls[j].grpmagL3Current.None?
    {
      ghost var c0 := cfg;
      ghost var before := EmittedForCollisions(c0, colls[..j], selected, geo);
      ghost var rows := EmittedRows(c0, colls[j].pv, SliceOf(selected, colls[j].globalIndex), geo);
      CollisionsStep(c0, colls, selected, geo, j);
      assert EmittedForCollisions(c0, colls[..j + 1], selected, geo) == before + rows;
      ok := ProcessCollision(colls[j], selected, geo);
      assert cfg == c0;
      if ok {
        assert v0data == d0 + before + rows;
        assert d0 + before + rows == d0 + (before + rows);
      }
    }

    /** One collision of the process loop: the field set-up, then the build of its slice. */
    method ProcessCollision(coll: CollisionRow, selected: seq<V0>, geo: Geometry) returns (ok: bool)
      requires Valid()
      modifies this, v0stats, posITSclu, negITSclu
      ensures Valid()
      ensures cfg == old(cfg)
      ensures ok ==> v0data == old(v0data) + EmittedRows(cfg, coll.pv, SliceOf(selected, coll.globalIndex), geo)
                     && mRunNumber == coll.run
      ensures !ok ==> cfg.dBzInput <= -990.0 && coll.grpoNominalL3.None? && coll.grpmagL3Current.None?
      ensures ok ==> v0covs == old(v0covs)
                       + (if cfg.createV0CovMats != 0 then K.V0Ids(EmittedRows(cfg, coll.pv, SliceOf(selected, coll.globalIndex), geo)) else [])
      ensures ok ==> hEventCounter == old(hEventCounter) + old(eventCounter) + 1
                     && hCaughtExceptions == old(hCaughtExceptions) + old(exceptions) + CountThrew(cfg, coll.pv, SliceOf(selected, coll.globalIndex), geo)
      ensures ok ==> forall i :: 0 <= i < kNV0Steps ==>
                       hV0Criteria[i] == old(hV0Criteria[i]) + old(v0stats[i]) + CountReached(cfg, coll.pv, SliceOf(selected, coll.globalIndex), geo, i)
      ensures ok ==> forall i :: 0 <= i < kItsBins ==>
                       hPositiveITSClusters[i] == old(hPositiveITSClusters[i])
                         + (if cfg.doTrackQA then ItsAfterBatch(old(posITSclu[..]), cfg, coll.pv, SliceOf(selected, coll.globalIndex), geo, true)[i] else 0)
                       && hNegativeITSClusters[i] == old(hNegativeITSClusters[i])
                         + (if cfg.doTrackQA then ItsAfterBatch(old(negITSclu[..]), cfg, coll.pv, SliceOf(selected, coll.globalIndex), geo, false)[i] else 0)
      ensures ok ==> v0stats[..] == Zeros(kNV0Steps) && exceptions == 0 && eventCounter == 0
                     && posITSclu[..] == Zeros(kItsBins) && negITSclu[..] == Zeros(kItsBins)
      ensures !ok ==> v0data == old(v0data)
    {
      ok := InitCcdb(coll.run, coll.grpoNominalL3, coll.grpmagL3Current);
      if !ok {
        return;
      }
      var slice := SliceV0s(selected, coll.globalIndex);
      BuildStrangenessTables(coll.pv, slice, geo);
    }
  }

  /** The `sliceBy` of the filtered V0 table for one collision index. */
  method SliceV0s(v0s: seq<V0>, collIdx: int) returns (r: seq<V0>)
    ensures r == SliceOf(v0s, collIdx)
  {
    r := [];
    var i := 0;
    while i < |v0s|
      invariant 0 <= i <= |v0s|
      invariant r == SliceOf(v0s[..i], collIdx)
    {
      assert v0s[..i + 1][..i] == v0s[..i];
      if v0s[i].collisionId == collIdx {
        r := r + [v0s[i]];
      }
      i := i + 1;
    }
    assert v0s[..i] == v0s;
  }
}
