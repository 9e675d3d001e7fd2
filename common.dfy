/**
 * Values shared by the two V0 builders: the outcome of the external
 * two-prong vertex fitter, the floating-point geometry the builders call
 * but that is kept uninterpreted here, the per-candidate scratch record and
 * the part of the staged selection that follows the vertex fit.
 */
module StraCommon {

  datatype Option<T> = None | Some(value: T)

  datatype Vec3 = Vec3(x: real, y: real, z: real)

  function Add(a: Vec3, b: Vec3): Vec3
  {
    Vec3(a.x + b.x, a.y + b.y, a.z + b.z)
  }

  function Abs(x: real): (r: real)
    ensures r >= 0.0 && (r == x || r == -x)
  {
    if x < 0.0 then -x else x
  }

  /** A daughter track as the builders read it. */
  datatype Track = Track(
    hasTpcRefit: bool,          // trackType() & TPCrefit
    tpcNClsCrossedRows: int,
    itsNCls: nat,
    dcaXY: real)

  /**
   * One call of the external DCA fitter: either it throws, or it returns a
   * candidate count together with the state of its best candidate.
   */
  datatype FitOutcome =
    | Threw
    | Fitted(nCand: int, posTrackX: real, negTrackX: real,
             posP: Vec3, negP: Vec3, vertex: Vec3, chi2: real)

  /**
   * The pointing-angle cosine, the transverse radius and the square root
   * used by the builders. They are floating-point geometry outside the
   * model, so they enter as arbitrary functions.
   */
  datatype Geometry = Geometry(
    cpa: (Vec3, Vec3, Vec3) -> real,
    sqrtSumOfSquares: (real, real) -> real,
    sqrt: real -> real)

  /** The thresholds applied after the fit. */
  datatype TopoCuts = TopoCuts(dcav0dau: real, v0cospa: real, v0radius: real)

  /** The builders' scratch struct `v0candidate`. */
  datatype V0Candidate = V0Candidate(
    posTrackX: real, negTrackX: real,
    pos: Vec3, posP: Vec3, negP: Vec3,
    dcaV0dau: real, posDCAxy: real, negDCAxy: real,
    cosPA: real, v0radius: real)

  const ZeroVec := Vec3(0.0, 0.0, 0.0)
  const EmptyCandidate := V0Candidate(0.0, 0.0, ZeroVec, ZeroVec, ZeroVec, 0.0, 0.0, 0.0, 0.0, 0.0)

  /** DCA between the daughters of a successful fit: sqrt of the fit chi2. */
  function DcaDau(f: FitOutcome, geo: Geometry): real
    requires f.Fitted?
  {
    geo.sqrt(f.chi2)
  }

  function CosPA(f: FitOutcome, geo: Geometry, pv: Vec3): real
    requires f.Fitted?
  {
    geo.cpa(pv, f.vertex, Add(f.posP, f.negP))
  }

  function Radius(f: FitOutcome, geo: Geometry): real
    requires f.Fitted?
  {
    geo.sqrtSumOfSquares(f.vertex.x, f.vertex.y)
  }

  /** The fitter produced a usable candidate (no throw, nCand != 0). */
  predicate FitUsable(f: FitOutcome)
  {
    f.Fitted? && f.nCand != 0
  }

  /**
   * Number of stage counters bumped after the fit is started: 0 when the
   * fitter throws, finds no candidate or the daughters are too far apart,
   * 1 when the pointing angle fails, 2 when the radius fails, 3 when accepted.
   */
  function TailBumps(c: TopoCuts, pv: Vec3, f: FitOutcome, geo: Geometry): (n: nat)
    ensures n <= 3
    ensures n >= 1 <==> FitUsable(f) && DcaDau(f, geo) <= c.dcav0dau
    ensures n >= 2 <==> n >= 1 && CosPA(f, geo, pv) >= c.v0cospa
    ensures n == 3 <==> n >= 2 && Radius(f, geo) >= c.v0radius
  {
    if !FitUsable(f) then 0
    else if DcaDau(f, geo) > c.dcav0dau then 0
    else if CosPA(f, geo, pv) < c.v0cospa then 1
    else if Radius(f, geo) < c.v0radius then 2
    else 3
  }

  /** The scratch record after the fit part of the pipeline has run. */
  function TailScratch(prev: V0Candidate, c: TopoCuts, pv: Vec3, f: FitOutcome, geo: Geometry): V0Candidate
  {
    if !FitUsable(f) then prev
    else
      var fitted := prev.(posTrackX := f.posTrackX, negTrackX := f.negTrackX,
                          posP := f.posP, negP := f.negP, pos := f.vertex,
                          dcaV0dau := DcaDau(f, geo));
      var n := TailBumps(c, pv, f, geo);
      if n == 0 then fitted
      else if n == 1 then fitted.(cosPA := CosPA(f, geo, pv))
      else fitted.(cosPA := CosPA(f, geo, pv), v0radius := Radius(f, geo))
  }

  /** The candidate as it is emitted: every field computed from this fit. */
  function FittedCandidate(posDca: real, negDca: real, pv: Vec3, f: FitOutcome, geo: Geometry): V0Candidate
    requires f.Fitted?
  {
    V0Candidate(f.posTrackX, f.negTrackX, f.vertex, f.posP, f.negP,
                DcaDau(f, geo), posDca, negDca, CosPA(f, geo, pv), Radius(f, geo))
  }

  /**
   * An accepted candidate carries nothing over from the previous candidate:
   * every field of the scratch record was written during this evaluation.
   */
  lemma AcceptedScratchIsFresh(prev: V0Candidate, posDca: real, negDca: real,
                               c: TopoCuts, pv: Vec3, f: FitOutcome, geo: Geometry)
    requires TailBumps(c, pv, f, geo) == 3
    ensures TailScratch(prev.(posDCAxy := posDca, negDCAxy := negDca), c, pv, f, geo)
            == FittedCandidate(posDca, negDca, pv, f, geo)
  {
  }

  /** `resize(n, fill)` of a std::vector: keeps the first entries, pads with `fill`. */
  function Resize<T>(s: seq<T>, n: nat, fill: T): (r: seq<T>)
    ensures |r| == n
    ensures forall i :: 0 <= i < n && i < |s| ==> r[i] == s[i]
    ensures forall i :: |s| <= i < n ==> r[i] == fill
  {
    if n <= |s| then s[..n] else s + seq(n - |s|, _ => fill)
  }

  /** The stage counters after a candidate reached `k` stages: the first `k` are one higher. */
  function Bump(s: seq<int>, k: nat): (r: seq<int>)
    ensures |r| == |s|
    ensures forall i :: 0 <= i < |s| ==> r[i] == if i < k then s[i] + 1 else s[i]
  {
    seq(|s|, i requires 0 <= i < |s| => if i < k then s[i] + 1 else s[i])
  }

  /**
   * The bookkeeping invariant of a builder's statistics registry: every
   * stage counts at most as many candidates as the stage before it, and the
   * caught fitter exceptions are among the candidates that passed stage
   * `fitStage` but not stage `fitStage + 1`.
   */
  ghost predicate StageCounts(s: seq<int>, exceptions: int, fitStage: nat)
  {
    fitStage + 1 < |s| && s[|s| - 1] >= 0
    && (forall i :: 0 <= i < |s| - 1 ==> s[i] >= s[i + 1])
    && 0 <= exceptions <= s[fitStage] - s[fitStage + 1]
  }

  /** One candidate keeps the invariant: it reaches some stages, and it throws only at the fit. */
  lemma BumpKeepsStageCounts(s: seq<int>, exceptions: int, fitStage: nat, k: nat, threw: bool)
    requires StageCounts(s, exceptions, fitStage)
    requires 1 <= k <= |s|
    requires threw ==> k == fitStage + 1
    ensures StageCounts(Bump(s, k), exceptions + (if threw then 1 else 0), fitStage)
  {
    var r := Bump(s, k);
    forall i | 0 <= i < |s| - 1 ensures r[i] >= r[i + 1] {
    }
  }

  /** Two registries that keep the invariant add up to one that keeps it (histogram filling). */
  lemma StageCountsAdd(a: seq<int>, ea: int, b: seq<int>, eb: int, fitStage: nat)
    requires StageCounts(a, ea, fitStage) && StageCounts(b, eb, fitStage) && |a| == |b|
    ensures StageCounts(seq(|a|, i requires 0 <= i < |a| => a[i] + b[i]), ea + eb, fitStage)
  {
  }

  function Zeros(n: nat): (r: seq<int>)
    ensures |r| == n && forall i :: 0 <= i < n ==> r[i] == 0
  {
    seq(n, _ => 0)
  }

  /** `std::lround`: nearest integer, halfway cases away from zero. */
  function LRound(x: real): (r: int)
    ensures -0.5 <= r as real - x <= 0.5
    ensures x >= 0.0 ==> r >= 0
    ensures x <= 0.0 ==> r <= 0
    ensures r as real - x == 0.5 ==> x > 0.0
    ensures r as real - x == -0.5 ==> x < 0.0
  {
    if x >= 0.0 then (x + 0.5).Floor else -((-x + 0.5).Floor)
  }
}
