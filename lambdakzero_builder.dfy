/**
 * The single-strange (V0) builder: for every V0 of a collision it applies a
 * staged selection (TPC refit, crossed rows, DCA to the primary vertex, the
 * vertex fit, DCA between the daughters, pointing angle, radius), counts how
 * many candidates pass each stage, and emits a V0Datas row (and, on request,
 * a V0Covs row) for every candidate that passes them all.
 */
module LambdaKzeroBuilder {
  import opened StraCommon
  import opened AutoDetect

  const kV0All := 0
  const kV0TPCrefit := 1
  const kV0CrossedRows := 2
  const kV0DCAxy := 3
  const kV0DCADau := 4
  const kV0CosPA := 5
  const kV0Radius := 6
  const kNV0Steps := 7

  /** Number of bins of the hV0Criteria histogram. */
  const kCriteriaBins := 10

  datatype BuilderConfig = BuilderConfig(
    createV0CovMats: int,      // -1 auto, 0 no, 1 yes
    useAutodetectMode: bool,
    mincrossedrows: int,
    dcanegtopv: real,
    dcapostopv: real,
    v0cospa: real,
    dcav0dau: real,
    v0radius: real,
    tpcrefit: int,
    dBzInput: real,            // -999: take the field from the CCDB
    useMatCorrType: int,       // 0 none, 1 TGeo, 2 LUT
    doprocessRun2: bool,
    doprocessRun3: bool,
    doprocessRun3associated: bool)

  const DefaultConfig := BuilderConfig(-1, true, 70, 0.1, 0.1, 0.995, 1.0, 0.9, 0, -999.0, 0,
                                       true, false, false)

  datatype MatCorr = MatCorrNone | MatCorrTGeo | MatCorrLUT

  function MatCorrFor(t: int): (m: MatCorr)
    ensures m == MatCorrTGeo <==> t == 1
    ensures m == MatCorrLUT <==> t == 2
  {
    if t == 1 then MatCorrTGeo else if t == 2 then MatCorrLUT else MatCorrNone
  }

  /** A row of the V0 table, with the fitter's answer for its daughters. */
  datatype V0 = V0(globalIndex: int, posTrackId: int, negTrackId: int, collisionId: int,
                   pos: Track, neg: Track, fit: FitOutcome)

  datatype Collision = Collision(pv: Vec3)

  /**
   * A V0Datas row: the V0's indices and the whole fitted candidate. The
   * source's row stores every candidate column except `cosPA` and
   * `v0radius`, which its readers recompute from the stored position and
   * momenta; the model keeps them in the row for convenience only.
   */
  datatype V0DataRow = V0DataRow(posTrackId: int, negTrackId: int, collisionId: int, v0Id: int,
                                 cand: V0Candidate)

  function Cuts(c: BuilderConfig): TopoCuts
  {
    TopoCuts(c.dcav0dau, c.v0cospa, c.v0radius)
  }

  /** Number of stage counters the candidate bumps (kV0All is always bumped). */
  function Reached(c: BuilderConfig, pv: Vec3, v: V0, geo: Geometry): (n: nat)
    ensures 1 <= n <= kNV0Steps
  {
    if c.tpcrefit != 0 && !(v.pos.hasTpcRefit && v.neg.hasTpcRefit) then 1
    else if v.pos.tpcNClsCrossedRows < c.mincrossedrows || v.neg.tpcNClsCrossedRows < c.mincrossedrows then 2
    else if Abs(v.pos.dcaXY) < c.dcapostopv || Abs(v.neg.dcaXY) < c.dcanegtopv then 3
    else 4 + TailBumps(Cuts(c), pv, v.fit, geo)
  }

  /** The fitter was called and threw. */
  predicate ThrewAtFit(c: BuilderConfig, pv: Vec3, v: V0, geo: Geometry)
  {
    Reached(c, pv, v, geo) >= 4 && v.fit.Threw?
  }

  /** Every selection of the builder, stated as one conjunction. */
  predicate PassesAllCuts(c: BuilderConfig, pv: Vec3, v: V0, geo: Geometry)
  {
    (c.tpcrefit == 0 || (v.pos.hasTpcRefit && v.neg.hasTpcRefit))
    && v.pos.tpcNClsCrossedRows >= c.mincrossedrows && v.neg.tpcNClsCrossedRows >= c.mincrossedrows
    && Abs(v.pos.dcaXY) >= c.dcapostopv && Abs(v.neg.dcaXY) >= c.dcanegtopv
    && v.fit.Fitted? && v.fit.nCand != 0
    && geo.sqrt(v.fit.chi2) <= c.dcav0dau
    && geo.cpa(pv, v.fit.vertex, Add(v.fit.posP, v.fit.negP)) >= c.v0cospa
    && geo.sqrtSumOfSquares(v.fit.vertex.x, v.fit.vertex.y) >= c.v0radius
  }

  /** A candidate is accepted exactly when it passes every cut; thresholds themselves pass. */
  lemma AcceptedIffAllCuts(c: BuilderConfig, pv: Vec3, v: V0, geo: Geometry)
    ensures Reached(c, pv, v, geo) == kNV0Steps <==> PassesAllCuts(c, pv, v, geo)
  {
  }

  /** The scratch record after one candidate was evaluated. */
  function CandidateAfter(prev: V0Candidate, c: BuilderConfig, pv: Vec3, v: V0, geo: Geometry): V0Candidate
  {
    if Reached(c, pv, v, geo) < 4 then prev
    else TailScratch(prev.(posDCAxy := v.pos.dcaXY, negDCAxy := v.neg.dcaXY), Cuts(c), pv, v.fit, geo)
  }

  function RowFor(v: V0, pv: Vec3, geo: Geometry): V0DataRow
    requires v.fit.Fitted?
  {
    V0DataRow(v.posTrackId, v.negTrackId, v.collisionId, v.globalIndex,
              FittedCandidate(v.pos.dcaXY, v.neg.dcaXY, pv, v.fit, geo))
  }

  /** The V0Datas rows emitted for a list of V0s: one per accepted candidate, in order. */
  function EmittedRows(c: BuilderConfig, pv: Vec3, v0s: seq<V0>, geo: Geometry): seq<V0DataRow>
  {
    if |v0s| == 0 then []
    else
      var v := v0s[|v0s| - 1];
      EmittedRows(c, pv, v0s[..|v0s| - 1], geo)
      + (if Reached(c, pv, v, geo) == kNV0Steps then [RowFor(v, pv, geo)] else [])
  }

  /** Number of candidates that bump counter `i`. */
  function CountReached(c: BuilderConfig, pv: Vec3, v0s: seq<V0>, geo: Geometry, i: nat): nat
  {
    if |v0s| == 0 then 0
    else CountReached(c, pv, v0s[..|v0s| - 1], geo, i) + (if Reached(c, pv, v0s[|v0s| - 1], geo) > i then 1 else 0)
  }

  function CountThrew(c: BuilderConfig, pv: Vec3, v0s: seq<V0>, geo: Geometry): nat
  {
    if |v0s| == 0 then 0
    else CountThrew(c, pv, v0s[..|v0s| - 1], geo) + (if ThrewAtFit(c, pv, v0s[|v0s| - 1], geo) then 1 else 0)
  }

  function StageTotals(c: BuilderConfig, pv: Vec3, v0s: seq<V0>, geo: Geometry): (s: seq<int>)
    ensures |s| == kNV0Steps
  {
    seq(kNV0Steps, i requires 0 <= i < kNV0Steps => CountReached(c, pv, v0s, geo, i))
  }

  function V0Ids(rows: seq<V0DataRow>): (ids: seq<int>)
    ensures |ids| == |rows| && forall i :: 0 <= i < |rows| ==> ids[i] == rows[i].v0Id
  {
    seq(|rows|, i requires 0 <= i < |rows| => rows[i].v0Id)
  }

  /** One emitted row per candidate that passes the last stage, each one passing every cut. */
  lemma {:induction false} EmittedRowsAreAccepted(c: BuilderConfig, pv: Vec3, v0s: seq<V0>, geo: Geometry)
    ensures |EmittedRows(c, pv, v0s, geo)| == CountReached(c, pv, v0s, geo, kV0Radius)
    ensures forall r :: r in EmittedRows(c, pv, v0s, geo) ==>
              exists v :: v in v0s && r.v0Id == v.globalIndex && PassesAllCuts(c, pv, v, geo)
  {
    if |v0s| > 0 {
      var p := v0s[..|v0s| - 1];
      var v := v0s[|v0s| - 1];
      EmittedRowsAreAccepted(c, pv, p, geo);
      assert forall x :: x in p ==> x in v0s;
      if Reached(c, pv, v, geo) == kNV0Steps {
        AcceptedIffAllCuts(c, pv, v, geo);
      }
    }
  }

  /** How every per-table total grows when the loop takes one more V0. */
  lemma PrefixStep(c: BuilderConfig, pv: Vec3, v0s: seq<V0>, geo: Geometry, k: nat)
    requires k < |v0s|
    ensures var n := Reached(c, pv, v0s[k], geo);
            && EmittedRows(c, pv, v0s[..k + 1], geo)
               == EmittedRows(c, pv, v0s[..k], geo) + (if n == kNV0Steps then [RowFor(v0s[k], pv, geo)] else [])
            && V0Ids(EmittedRows(c, pv, v0s[..k + 1], geo))
               == V0Ids(EmittedRows(c, pv, v0s[..k], geo)) + (if n == kNV0Steps then [v0s[k].globalIndex] else [])
            && CountThrew(c, pv, v0s[..k + 1], geo)
               == CountThrew(c, pv, v0s[..k], geo) + (if ThrewAtFit(c, pv, v0s[k], geo) then 1 else 0)
            && forall i :: CountReached(c, pv, v0s[..k + 1], geo, i)
                           == CountReached(c, pv, v0s[..k], geo, i) + (if n > i then 1 else 0)
  {
    assert v0s[..k + 1][..k] == v0s[..k];
    var a := EmittedRows(c, pv, v0s[..k], geo);
    if Reached(c, pv, v0s[k], geo) == kNV0Steps {
      assert V0Ids(a + [RowFor(v0s[k], pv, geo)]) == V0Ids(a) + [v0s[k].globalIndex];
    } else {
      assert a + [] == a;
    }
  }

  /** The stage counters after one more V0, from those before it. */
  lemma CountsStep(c: BuilderConfig, pv: Vec3, v0s: seq<V0>, geo: Geometry, k: nat,
                   s0: seq<int>, pre: seq<int>, post: seq<int>)
    requires k < |v0s| && |s0| == |pre| == kNV0Steps
    requires forall i :: 0 <= i < kNV0Steps ==> pre[i] == s0[i] + CountReached(c, pv, v0s[..k], geo, i)
    requires post == Bump(pre, Reached(c, pv, v0s[k], geo))
    ensures forall i :: 0 <= i < kNV0Steps ==> post[i] == s0[i] + CountReached(c, pv, v0s[..k + 1], geo, i)
  {
    PrefixStep(c, pv, v0s, geo, k);
  }

  /** The per-call totals keep the registry invariant. */
  lemma {:induction false} StageTotalsKeepCounts(c: BuilderConfig, pv: Vec3, v0s: seq<V0>, geo: Geometry)
    ensures StageCounts(StageTotals(c, pv, v0s, geo), CountThrew(c, pv, v0s, geo), kV0DCAxy)
  {
    if |v0s| > 0 {
      var p := v0s[..|v0s| - 1];
      var v := v0s[|v0s| - 1];
      StageTotalsKeepCounts(c, pv, p, geo);
      var k := Reached(c, pv, v, geo);
      BumpKeepsStageCounts(StageTotals(c, pv, p, geo), CountThrew(c, pv, p, geo), kV0DCAxy, k,
                           ThrewAtFit(c, pv, v, geo));
      assert StageTotals(c, pv, v0s, geo) == Bump(StageTotals(c, pv, p, geo), k);
    }
  }

  /** Both analysis-facing process functions subscribe to tracks of one kind only. */
  predicate ExactlyOneProcess(c: BuilderConfig)
  {
    (if c.doprocessRun2 then 1 else 0) + (if c.doprocessRun3 then 1 else 0)
    + (if c.doprocessRun3associated then 1 else 0) == 1
  }

  /** The configuration after self-configuration against the running workflow. */
  function Autodetected(c: BuilderConfig, devs: seq<DeviceSpec>): BuilderConfig
  {
    if !c.useAutodetectMode then c
    else
      var t := Loosest(devs);
      c.(dcanegtopv := t.dcanegtopv, dcapostopv := t.dcapostopv, v0cospa := t.v0cospa,
         dcav0dau := t.dcav0dau, v0radius := t.v0radius,
         createV0CovMats := if CovsRequested(devs) then 1 else c.createV0CovMats)
  }

  /** `if (createV0CovMats)`: every non-zero value, the automatic -1 included, writes covariances. */
  predicate WritesCovariances(c: BuilderConfig)
  {
    c.createV0CovMats != 0
  }

  /** The field, in kG, chosen at a run change; `None` when neither GRP object exists (fatal). */
  function FieldFor(dBzInput: real, grpoNominalL3: Option<real>, grpmagL3Current: Option<real>): (bz: Option<real>)
    ensures dBzInput >= -990.0 ==> bz == (if grpoNominalL3.None? && grpmagL3Current.None? then None else Some(dBzInput))
    ensures bz.None? <==> grpoNominalL3.None? && grpmagL3Current.None?
    ensures dBzInput < -990.0 && grpoNominalL3.Some? ==> bz == grpoNominalL3
    ensures dBzInput < -990.0 && grpoNominalL3.None? && grpmagL3Current.Some? ==>
              -0.5 <= bz.value - 5.0 * grpmagL3Current.value / 30000.0 <= 0.5 && bz.value == bz.value.Floor as real
  {
    match grpoNominalL3
    case Some(nominal) => Some(if dBzInput < -990.0 then nominal else dBzInput)
    case None =>
      match grpmagL3Current
      case None => None
      case Some(current) => Some(if dBzInput < -990.0 then LRound(5.0 * current / 30000.0) as real else dBzInput)
  }

  /** A nominal 30 kA solenoid current gives 5 kG, half of it rounds to 3 kG. */
  lemma FieldFromCurrentExample()
    ensures FieldFor(-999.0, None, Some(30000.0)) == Some(5.0)
    ensures FieldFor(-999.0, None, Some(-15000.0)) == Some(-3.0)
    ensures FieldFor(-999.0, Some(-5.0), Some(30000.0)) == Some(-5.0)
  {
    assert (5.0 * 30000.0 / 30000.0 + 0.5).Floor == 5;
    assert (-(5.0 * -15000.0 / 30000.0) + 0.5).Floor == 3;
  }

  class Builder {
    var cfg: BuilderConfig
    const v0stats: array<int>
    var exceptions: int
    var eventCounter: int
    var candidate: V0Candidate
    var mRunNumber: int
    var bz: real
    var fitterBz: real
    var matCorr: MatCorr
    /** Produced tables. */
    var v0data: seq<V0DataRow>
    var v0covs: seq<int>
    /** Histogram registry. */
    var hEventCounter: int
    var hCaughtExceptions: int
    var hV0Criteria: seq<int>

    ghost predicate Valid()
      reads this, v0stats
    {
      v0stats.Length == kNV0Steps && StageCounts(v0stats[..], exceptions, kV0DCAxy) && eventCounter >= 0
      && |hV0Criteria| == kCriteriaBins && StageCounts(hV0Criteria[..kNV0Steps], hCaughtExceptions, kV0DCAxy)
      && hEventCounter >= 0
    }

    constructor (config: BuilderConfig)
      ensures Valid() && fresh(v0stats)
      ensures cfg == config && v0data == [] && v0covs == []
    {
      cfg := config;
      v0stats := new int[kNV0Steps](_ => 0);
      exceptions, eventCounter := 0, 0;
      candidate := EmptyCandidate;
      mRunNumber, bz, fitterBz := 0, 0.0, 0.0;
      matCorr := MatCorrNone;
      v0data, v0covs := [], [];
      hEventCounter, hCaughtExceptions := 0, 0;
      hV0Criteria := Zeros(kCriteriaBins);
    }

    /** `resetHistos`: zeroes the statistics registry. */
    method ResetHistos()
      requires Valid()
      modifies this`exceptions, this`eventCounter, v0stats
      ensures Valid()
      ensures v0stats[..] == Zeros(kNV0Steps) && exceptions == 0 && eventCounter == 0
    {
      exceptions := 0;
      eventCounter := 0;
      var ii := 0;
      while ii < kNV0Steps
        invariant 0 <= ii <= kNV0Steps
        invariant exceptions == 0 && eventCounter == 0
        invariant forall j :: 0 <= j < ii ==> v0stats[j] == 0
      {
        v0stats[ii] := 0;
        ii := ii + 1;
      }
      assert v0stats[..] == Zeros(kNV0Steps);
      assert StageCounts(v0stats[..], exceptions, kV0DCAxy);
    }

    /** `fillHistos`: adds the registry into the histograms. */
    method FillHistos()
      requires Valid()
      modifies this`hEventCounter, this`hCaughtExceptions, this`hV0Criteria
      ensures Valid()
      ensures hEventCounter == old(hEventCounter) + eventCounter
      ensures hCaughtExceptions == old(hCaughtExceptions) + exceptions
      ensures |hV0Criteria| == kCriteriaBins
      ensures forall i :: 0 <= i < kCriteriaBins ==>
                hV0Criteria[i] == old(hV0Criteria[i]) + (if i < kNV0Steps then v0stats[i] else 0)
    {
      hEventCounter := hEventCounter + eventCounter;
      hCaughtExceptions := hCaughtExceptions + exceptions;
      ghost var h0 := hV0Criteria;
      ghost var vs := v0stats[..];
      var ii := 0;
      while ii < kNV0Steps
        invariant 0 <= ii <= kNV0Steps
        invariant |hV0Criteria| == kCriteriaBins
        invariant hEventCounter == old(hEventCounter) + eventCounter
        invariant hCaughtExceptions == old(hCaughtExceptions) + exceptions
        invariant forall j :: 0 <= j < kCriteriaBins ==>
                    hV0Criteria[j] == h0[j] + (if j < ii then v0stats[j] else 0)
      {
        hV0Criteria := hV0Criteria[ii := hV0Criteria[ii] + v0stats[ii]];
        ii := ii + 1;
      }
      ghost var h7 := h0[..kNV0Steps];
      StageCountsAdd(h7, old(hCaughtExceptions), vs, exceptions, kV0DCAxy);
      assert hV0Criteria[..kNV0Steps] == seq(kNV0Steps, i requires 0 <= i < kNV0Steps => h7[i] + vs[i]);
    }

    /**
     * `init`: resets the registry, rejects any process-function choice but
     * exactly one (`ok` false stands for the fatal log), then self-configures
     * against the running workflow and picks the material correction.
     */
    method Init(devs: seq<DeviceSpec>) returns (ok: bool)
      requires Valid()
      modifies this, v0stats
      ensures Valid()
      ensures ok <==> ExactlyOneProcess(old(cfg))
      ensures v0stats[..] == Zeros(kNV0Steps) && exceptions == 0 && eventCounter == 0
      ensures mRunNumber == 0 && bz == 0.0
      ensures ok ==> cfg == Autodetected(old(cfg), devs) && matCorr == MatCorrFor(cfg.useMatCorrType)
      ensures !ok ==> cfg == old(cfg)
      ensures v0data == old(v0data) && v0covs == old(v0covs)
      ensures hEventCounter == old(hEventCounter) && hCaughtExceptions == old(hCaughtExceptions)
      ensures hV0Criteria == old(hV0Criteria)
    {
      ResetHistos();
      mRunNumber := 0;
      bz := 0.0;
      if !cfg.doprocessRun2 && !cfg.doprocessRun3 && !cfg.doprocessRun3associated {
        return false;
      }
      if cfg.doprocessRun2 && cfg.doprocessRun3 {
        return false;
      }
      if cfg.doprocessRun2 && cfg.doprocessRun3associated {
        return false;
      }
      if cfg.doprocessRun3 && cfg.doprocessRun3associated {
        return false;
      }
      ok := true;
      if cfg.useAutodetectMode {
        var t, covs := Negotiate(devs);
        if covs {
          cfg := cfg.(createV0CovMats := 1);
        }
        cfg := cfg.(dcanegtopv := t.dcanegtopv, dcapostopv := t.dcapostopv, v0cospa := t.v0cospa,
                    dcav0dau := t.dcav0dau, v0radius := t.v0radius);
      }
      matCorr := MatCorrFor(cfg.useMatCorrType);
    }

    /**
     * `initCCDB`: on a run change, takes the field from the GRP object (or
     * from the GRPMagField current) unless an explicit field is configured,
     * and hands it to the fitter. `ok` false stands for the fatal log when
     * neither object exists.
     */
    method InitCcdb(run: int, grpoNominalL3: Option<real>, grpmagL3Current: Option<real>) returns (ok: bool)
      requires Valid()
      modifies this`bz, this`mRunNumber, this`fitterBz
      ensures Valid()
      ensures old(mRunNumber) == run ==> ok && bz == old(bz) && mRunNumber == run && fitterBz == old(fitterBz)
      ensures old(mRunNumber) != run ==>
                ok == FieldFor(cfg.dBzInput, grpoNominalL3, grpmagL3Current).Some?
                && (ok ==> bz == FieldFor(cfg.dBzInput, grpoNominalL3, grpmagL3Current).value
                           && mRunNumber == run && fitterBz == bz)
                && (!ok ==> mRunNumber == old(mRunNumber) && fitterBz == old(fitterBz))
    {
      if mRunNumber == run {
        return true;
      }
      if grpoNominalL3.Some? {
        if cfg.dBzInput < -990.0 {
          bz := grpoNominalL3.value;
        } else {
          bz := cfg.dBzInput;
        }
      } else {
        if grpmagL3Current.None? {
          return false;
        }
        if cfg.dBzInput < -990.0 {
          bz := LRound(5.0 * grpmagL3Current.value / 30000.0) as real;
        } else {
          bz := cfg.dBzInput;
        }
      }
      mRunNumber := run;
      fitterBz := bz;
      ok := true;
    }

    /** `buildV0Candidate`: the staged selection of one V0. */
    method BuildV0Candidate(pv: Vec3, v: V0, geo: Geometry) returns (ok: bool)
      requires Valid()
      modifies this`exceptions, this`candidate, v0stats
      ensures Valid()
      ensures v0stats[..] == Bump(old(v0stats[..]), Reached(cfg, pv, v, geo))
      ensures ok <==> Reached(cfg, pv, v, geo) == kNV0Steps
      ensures exceptions == old(exceptions) + (if ThrewAtFit(cfg, pv, v, geo) then 1 else 0)
      ensures candidate == CandidateAfter(old(candidate), cfg, pv, v, geo)
    {
      ghost var s0 := v0stats[..];
      ghost var k := Reached(cfg, pv, v, geo);
      BumpKeepsStageCounts(s0, exceptions, kV0DCAxy, k, ThrewAtFit(cfg, pv, v, geo));
      ok := StagesBeforeFit(pv, v, geo, s0, k);
      if !ok {
        return;
      }
      candidate := candidate.(posDCAxy := v.pos.dcaXY, negDCAxy := v.neg.dcaXY);
      ok := FitTail(pv, v.fit, geo, s0, k);
    }

    /** The counters of the three stages before the fit: `ok` when all three pass. */
    method StagesBeforeFit(pv: Vec3, v: V0, geo: Geometry, ghost s0: seq<int>, ghost k: nat) returns (ok: bool)
      requires v0stats.Length == kNV0Steps && v0stats[..] == s0
      requires k == Reached(cfg, pv, v, geo)
      modifies v0stats
      ensures ok <==> k >= 4
      ensures v0stats[..] == Bump(s0, if ok then 4 else k)
    {
      v0stats[kV0All] := v0stats[kV0All] + 1;
      assert v0stats[..] == Bump(s0, 1);
      if cfg.tpcrefit != 0 {
        if !v.pos.hasTpcRefit || !v.neg.hasTpcRefit {
          assert k == 1;
          return false;
        }
      }
      v0stats[kV0TPCrefit] := v0stats[kV0TPCrefit] + 1;
      assert v0stats[..] == Bump(s0, 2);
      if v.pos.tpcNClsCrossedRows < cfg.mincrossedrows || v.neg.tpcNClsCrossedRows < cfg.mincrossedrows {
        assert k == 2;
        return false;
      }
      v0stats[kV0CrossedRows] := v0stats[kV0CrossedRows] + 1;
      assert v0stats[..] == Bump(s0, 3);
      if Abs(v.pos.dcaXY) < cfg.dcapostopv || Abs(v.neg.dcaXY) < cfg.dcanegtopv {
        assert k == 3;
        return false;
      }
      v0stats[kV0DCAxy] := v0stats[kV0DCAxy] + 1;
      assert v0stats[..] == Bump(s0, 4);
      ok := true;
    }

    /** From the fitter call to the radius cut; the counters of the first four stages are already bumped. */
    method FitTail(pv: Vec3, fit: FitOutcome, geo: Geometry, ghost s0: seq<int>, ghost k: nat) returns (ok: bool)
      requires v0stats.Length == kNV0Steps && |s0| == kNV0Steps
      requires k == 4 + TailBumps(Cuts(cfg), pv, fit, geo)
      requires v0stats[..] == Bump(s0, 4)
      requires StageCounts(Bump(s0, k), exceptions + (if fit.Threw? then 1 else 0), kV0DCAxy)
      requires eventCounter >= 0 && |hV0Criteria| == kCriteriaBins && hEventCounter >= 0
      requires StageCounts(hV0Criteria[..kNV0Steps], hCaughtExceptions, kV0DCAxy)
      modifies this`exceptions, this`candidate, v0stats
      ensures Valid()
      ensures v0stats[..] == Bump(s0, k)
      ensures ok <==> k == kNV0Steps
      ensures exceptions == old(exceptions) + (if fit.Threw? then 1 else 0)
      ensures candidate == TailScratch(old(candidate), Cuts(cfg), pv, fit, geo)
    {
      if fit.Threw? {
        exceptions := exceptions + 1;
        assert k == 4;
        return false;
      }
      if fit.nCand == 0 {
        assert k == 4;
        return false;
      }
      candidate := candidate.(posTrackX := fit.posTrackX, negTrackX := fit.negTrackX,
                              posP := fit.posP, negP := fit.negP, pos := fit.vertex);
      candidate := candidate.(dcaV0dau := geo.sqrt(fit.chi2));
      if candidate.dcaV0dau > cfg.dcav0dau {
        assert k == 4;
        return false;
      }
      v0stats[kV0DCADau] := v0stats[kV0DCADau] + 1;
      assert v0stats[..] == Bump(s0, 5);
      candidate := candidate.(cosPA := geo.cpa(pv, candidate.pos, Add(candidate.posP, candidate.negP)));
      if candidate.cosPA < cfg.v0cospa {
        assert k == 5;
        return false;
      }
      v0stats[kV0CosPA] := v0stats[kV0CosPA] + 1;
      assert v0stats[..] == Bump(s0, 6);
      candidate := candidate.(v0radius := geo.sqrtSumOfSquares(candidate.pos.x, candidate.pos.y));
      if candidate.v0radius < cfg.v0radius {
        assert k == 6;
        return false;
      }
      v0stats[kV0Radius] := v0stats[kV0Radius] + 1;
      assert v0stats[..] == Bump(s0, 7);
      ok := true;
    }

    /**
     * `buildStrangenessTables`: runs the selection over the V0s of one
     * collision, emits a row per accepted candidate, fills the histograms and
     * resets the registry.
     */
    method BuildStrangenessTables(coll: Collision, v0s: seq<V0>, geo: Geometry)
      requires Valid()
      modifies this`eventCounter, this`exceptions, this`candidate, this`v0data, this`v0covs
      modifies this`hEventCounter, this`hCaughtExceptions, this`hV0Criteria, v0stats
      ensures Valid()
      ensures v0data == old(v0data) + EmittedRows(cfg, coll.pv, v0s, geo)
      ensures v0covs == old(v0covs) + (if WritesCovariances(cfg) then V0Ids(EmittedRows(cfg, coll.pv, v0s, geo)) else [])
      ensures hEventCounter == old(hEventCounter) + old(eventCounter) + 1
      ensures hCaughtExceptions == old(hCaughtExceptions) + old(exceptions) + CountThrew(cfg, coll.pv, v0s, geo)
      ensures |hV0Criteria| == kCriteriaBins
      ensures forall i :: 0 <= i < kNV0Steps ==>
                hV0Criteria[i] == old(hV0Criteria[i]) + old(v0stats[i]) + CountReached(cfg, coll.pv, v0s, geo, i)
      ensures forall i :: kNV0Steps <= i < kCriteriaBins ==> hV0Criteria[i] == old(hV0Criteria[i])
      ensures v0stats[..] == Zeros(kNV0Steps) && exceptions == 0 && eventCounter == 0
    {
      eventCounter := eventCounter + 1;
      BuildAll(coll.pv, v0s, geo);
      FillHistos();
      ResetHistos();
    }

    /** The table loop of `buildStrangenessTables`. */
    method BuildAll(pv: Vec3, v0s: seq<V0>, geo: Geometry)
      requires Valid()
      modifies this`exceptions, this`candidate, this`v0data, this`v0covs, v0stats
      ensures Valid()
      ensures forall i :: 0 <= i < kNV0Steps ==> v0stats[i] == old(v0stats[i]) + CountReached(cfg, pv, v0s, geo, i)
      ensures exceptions == old(exceptions) + CountThrew(cfg, pv, v0s, geo)
      ensures v0data == old(v0data) + EmittedRows(cfg, pv, v0s, geo)
      ensures v0covs == old(v0covs) + (if WritesCovariances(cfg) then V0Ids(EmittedRows(cfg, pv, v0s, geo)) else [])
    {
      ghost var s0 := v0stats[..];
      var k := 0;
      while k < |v0s|
        invariant 0 <= k <= |v0s|
        invariant Valid()
        invariant forall i :: 0 <= i < kNV0Steps ==> v0stats[i] == s0[i] + CountReached(cfg, pv, v0s[..k], geo, i)
        invariant exceptions == old(exceptions) + CountThrew(cfg, pv, v0s[..k], geo)
        invariant v0data == old(v0data) + EmittedRows(cfg, pv, v0s[..k], geo)
        invariant v0covs == old(v0covs) + (if WritesCovariances(cfg) then V0Ids(EmittedRows(cfg, pv, v0s[..k], geo)) else [])
      {
        BuildPrefixStep(pv, v0s, geo, k, s0, old(exceptions), old(v0data), old(v0covs));
        k := k + 1;
      }
      assert v0s[..k] == v0s;
    }

    /** One turn of the table loop, stated as the passage from the prefix v0s[..k] to v0s[..k + 1]. */
    method BuildPrefixStep(pv: Vec3, v0s: seq<V0>, geo: Geometry, k: nat,
                           ghost s0: seq<int>, ghost e0: int, ghost d0: seq<V0DataRow>, ghost c0: seq<int>)
      requires Valid() && k < |v0s| && |s0| == kNV0Steps
      requires forall i :: 0 <= i < kNV0Steps ==> v0stats[i] == s0[i] + CountReached(cfg, pv, v0s[..k], geo, i)
      requires exceptions == e0 + CountThrew(cfg, pv, v0s[..k], geo)
      requires v0data == d0 + EmittedRows(cfg, pv, v0s[..k], geo)
      requires v0covs == c0 + (if WritesCovariances(cfg) then V0Ids(EmittedRows(cfg, pv, v0s[..k], geo)) else [])
      modifies this`exceptions, this`candidate, this`v0data, this`v0covs, v0stats
      ensures Valid()
      ensures forall i :: 0 <= i < kNV0Steps ==> v0stats[i] == s0[i] + CountReached(cfg, pv, v0s[..k + 1], geo, i)
      ensures exceptions == e0 + CountThrew(cfg, pv, v0s[..k + 1], geo)
      ensures v0data == d0 + EmittedRows(cfg, pv, v0s[..k + 1], geo)
      ensures v0covs == c0 + (if WritesCovariances(cfg) then V0Ids(EmittedRows(cfg, pv, v0s[..k + 1], geo)) else [])
    {
      PrefixStep(cfg, pv, v0s, geo, k);
      ghost var pre := v0stats[..];
      BuildAndEmit(pv, v0s[k], geo);
      CountsStep(cfg, pv, v0s, geo, k, s0, pre, v0stats[..]);
    }

    /** One iteration of the table loop: the selection, then the V0Datas (and V0Covs) row if accepted. */
    method BuildAndEmit(pv: Vec3, v: V0, geo: Geometry)
      requires Valid()
      modifies this`exceptions, this`candidate, this`v0data, this`v0covs, v0stats
      ensures Valid()
      ensures v0stats[..] == Bump(old(v0stats[..]), Reached(cfg, pv, v, geo))
      ensures exceptions == old(exceptions) + (if ThrewAtFit(cfg, pv, v, geo) then 1 else 0)
      ensures v0data == old(v0data) + (if Reached(cfg, pv, v, geo) == kNV0Steps then [RowFor(v, pv, geo)] else [])
      ensures v0covs == old(v0covs) + (if Reached(cfg, pv, v, geo) == kNV0Steps && WritesCovariances(cfg)
                                       then [v.globalIndex] else [])
    {
      var valid := BuildV0Candidate(pv, v, geo);
      if valid {
        AcceptedScratchIsFresh(old(candidate), v.pos.dcaXY, v.neg.dcaXY, Cuts(cfg), pv, v.fit, geo);
        v0data := v0data + [V0DataRow(v.posTrackId, v.negTrackId, v.collisionId, v.globalIndex, candidate)];
        if cfg.createV0CovMats != 0 {
          v0covs := v0covs + [v.globalIndex];
        }
      }
    }

    /** `processRun2` / `processRun3`: field set-up for the collision's run, then the build. */
    method Process(coll: Collision, v0s: seq<V0>, run: int, grpoNominalL3: Option<real>,
                   grpmagL3Current: Option<real>, geo: Geometry) returns (ok: bool)
      requires Valid()
      modifies this, v0stats
      ensures Valid()
      ensures cfg == old(cfg)
      ensures ok ==> v0data == old(v0data) + EmittedRows(cfg, coll.pv, v0s, geo) && mRunNumber == run
      ensures !ok ==> v0data == old(v0data)
      ensures ok ==> v0covs == old(v0covs) + (if WritesCovariances(cfg) then V0Ids(EmittedRows(cfg, coll.pv, v0s, geo)) else [])
      ensures ok ==> hEventCounter == old(hEventCounter) + old(eventCounter) + 1
                     && hCaughtExceptions == old(hCaughtExceptions) + old(exceptions) + CountThrew(cfg, coll.pv, v0s, geo)
      ensures ok ==> forall i :: 0 <= i < kNV0Steps ==>
                       hV0Criteria[i] == old(hV0Criteria[i]) + old(v0stats[i]) + CountReached(cfg, coll.pv, v0s, geo, i)
      ensures ok ==> v0stats[..] == Zeros(kNV0Steps) && exceptions == 0 && eventCounter == 0
      ensures !ok ==> v0stats[..] == old(v0stats[..]) && exceptions == old(exceptions) && eventCounter == old(eventCounter)
                      && hV0Criteria == old(hV0Criteria) && hEventCounter == old(hEventCounter)
                      && hCaughtExceptions == old(hCaughtExceptions)
    {
      ok := InitCcdb(run, grpoNominalL3, grpmagL3Current);
      if !ok {
        return;
      }
      BuildStrangenessTables(coll, v0s, geo);
    }

    /** `processRun3associated`: only V0s the tag builder marked as interesting are built. */
    method ProcessAssociated(coll: Collision, v0s: seq<V0>, tags: seq<int>, run: int, grpoNominalL3: Option<real>,
                             grpmagL3Current: Option<real>, geo: Geometry) returns (ok: bool)
      requires Valid()
      requires |tags| == |v0s|
      modifies this, v0stats
      ensures Valid()
      ensures cfg == old(cfg)
      ensures ok ==> v0data == old(v0data) + EmittedRows(cfg, coll.pv, Tagged(v0s, tags), geo) && mRunNumber == run
      ensures !ok ==> v0data == old(v0data)
      ensures ok ==> v0covs == old(v0covs) + (if WritesCovariances(cfg) then V0Ids(EmittedRows(cfg, coll.pv, Tagged(v0s, tags), geo)) else [])
      ensures ok ==> hEventCounter == old(hEventCounter) + old(eventCounter) + 1
                     && hCaughtExceptions == old(hCaughtExceptions) + old(exceptions) + CountThrew(cfg, coll.pv, Tagged(v0s, tags), geo)
      ensures ok ==> forall i :: 0 <= i < kNV0Steps ==>
                       hV0Criteria[i] == old(hV0Criteria[i]) + old(v0stats[i]) + CountReached(cfg, coll.pv, Tagged(v0s, tags), geo, i)
      ensures ok ==> v0stats[..] == Zeros(kNV0Steps) && exceptions == 0 && eventCounter == 0
      ensures !ok ==> v0stats[..] == old(v0stats[..]) && exceptions == old(exceptions) && eventCounter == old(eventCounter)
                      && hV0Criteria == old(hV0Criteria) && hEventCounter == old(hEventCounter)
                      && hCaughtExceptions == old(hCaughtExceptions)
    {
      var selected := FilterTagged(v0s, tags);
      ok := Process(coll, selected, run, grpoNominalL3, grpmagL3Current, geo);
    }
  }

  /** The positions of the positive tags, in increasing order. */
  function PositiveIndices(tags: seq<int>): (idx: seq<nat>)
    ensures forall k :: 0 <= k < |idx| ==> idx[k] < |tags| && tags[idx[k]] > 0
    ensures forall k, l :: 0 <= k < l < |idx| ==> idx[k] < idx[l]
    ensures forall i :: 0 <= i < |tags| && tags[i] > 0 ==> i in idx
  {
    if |tags| == 0 then []
    else PositiveIndices(tags[..|tags| - 1]) + (if tags[|tags| - 1] > 0 then [|tags| - 1] else [])
  }

  /** The V0s whose tag is positive (the framework filter on isInteresting > 0), in table order. */
  function Tagged(v0s: seq<V0>, tags: seq<int>): seq<V0>
    requires |tags| == |v0s|
  {
    if |v0s| == 0 then []
    else Tagged(v0s[..|v0s| - 1], tags[..|tags| - 1])
         + (if tags[|tags| - 1] > 0 then [v0s[|v0s| - 1]] else [])
  }

  /** The tagged V0s are exactly the V0s at the positive tags' positions, in table order. */
  lemma {:induction false} TaggedAtPositiveIndices(v0s: seq<V0>, tags: seq<int>)
    requires |tags| == |v0s|
    ensures |Tagged(v0s, tags)| == |PositiveIndices(tags)|
    ensures forall k :: 0 <= k < |Tagged(v0s, tags)| ==> Tagged(v0s, tags)[k] == v0s[PositiveIndices(tags)[k]]
  {
    if |v0s| > 0 {
      var n := |v0s| - 1;
      TaggedAtPositiveIndices(v0s[..n], tags[..n]);
      var r := Tagged(v0s[..n], tags[..n]);
      var p := PositiveIndices(tags[..n]);
      forall k | 0 <= k < |r| ensures r[k] == v0s[p[k]] {
        assert p[k] < n;
        assert r[k] == v0s[..n][p[k]];
      }
      if tags[n] > 0 {
        TaggedSnocAt(r, p, v0s, n);
      }
    }
  }

  /** The inductive step of `TaggedAtPositiveIndices` when the last tag is positive. */
  lemma TaggedSnocAt(r: seq<V0>, p: seq<nat>, v0s: seq<V0>, n: nat)
    requires n < |v0s| && |r| == |p|
    requires forall k :: 0 <= k < |r| ==> p[k] < |v0s| && r[k] == v0s[p[k]]
    ensures forall k :: 0 <= k < |r| + 1 ==> (r + [v0s[n]])[k] == v0s[(p + [n])[k]]
  {
  }

  /** Every V0 with a positive tag is kept, and only those. */
  lemma TaggedKeepsExactlyPositive(v0s: seq<V0>, tags: seq<int>)
    requires |tags| == |v0s|
    ensures forall i :: 0 <= i < |v0s| && tags[i] > 0 ==> v0s[i] in Tagged(v0s, tags)
    ensures forall x :: x in Tagged(v0s, tags) ==> exists i :: 0 <= i < |v0s| && v0s[i] == x && tags[i] > 0
  {
    TaggedAtPositiveIndices(v0s, tags);
    var r := Tagged(v0s, tags);
    var idx := PositiveIndices(tags);
    forall i | 0 <= i < |v0s| && tags[i] > 0 ensures v0s[i] in r {
      var k :| 0 <= k < |idx| && idx[k] == i;
      assert r[k] == v0s[i];
    }
    forall x | x in r ensures exists i :: 0 <= i < |v0s| && v0s[i] == x && tags[i] > 0 {
      var k :| 0 <= k < |r| && r[k] == x;
      assert v0s[idx[k]] == x && tags[idx[k]] > 0;
    }
  }

  /** One more V0 extends the tagged prefix by that V0 iff its tag is positive. */
  lemma TaggedSnoc(v0s: seq<V0>, tags: seq<int>, i: nat)
    requires |tags| == |v0s| && i < |v0s|
    ensures Tagged(v0s[..i + 1], tags[..i + 1]) == Tagged(v0s[..i], tags[..i]) + (if tags[i] > 0 then [v0s[i]] else [])
  {
    assert v0s[..i + 1][..i] == v0s[..i] && tags[..i + 1][..i] == tags[..i];
  }

  method FilterTagged(v0s: seq<V0>, tags: seq<int>) returns (r: seq<V0>)
    requires |tags| == |v0s|
    ensures r == Tagged(v0s, tags)
  {
    r := [];
    var i := 0;
    while i < |v0s|
      invariant 0 <= i <= |v0s|
      invariant r == Tagged(v0s[..i], tags[..i])
    {
      TaggedSnoc(v0s, tags, i);
      if tags[i] > 0 {
        r := r + [v0s[i]];
      }
      i := i + 1;
    }
    assert v0s[..i] == v0s && tags[..i] == tags;
  }

  /**
   * With no subscriber the DCA-between-daughters threshold is the sentinel
   * −100; a daughter DCA, the square root of the fit's chi2, is never
   * negative, so every candidate stops before that stage.
   */
  lemma NoConsumerRejectsEverything(c: BuilderConfig, devs: seq<DeviceSpec>, pv: Vec3, v: V0, geo: Geometry)
    requires c.useAutodetectMode
    requires forall d :: d in devs ==> !Subscribes(d)
    requires v.fit.Fitted? ==> geo.sqrt(v.fit.chi2) >= 0.0
    ensures Reached(Autodetected(c, devs), pv, v, geo) <= 4
  {
    NoSubscriberGivesSentinels(devs);
  }
}
