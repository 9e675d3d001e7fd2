/**
 * The Omega analysis example: an optional software-trigger (Zorro) event
 * gate with a per-run initialisation cache, then a chain of topological,
 * mass-window and sign-dependent dE/dx cuts on each cascade, and an
 * invariant-mass fill into the histogram of the cascade's charge.
 */
module OmegaExample {
  import opened StraCommon

  datatype OmegaConfig = OmegaConfig(
    zorroMask: string,
    casccospa: real, v0cospa: real, v0massWindow: real,
    minCascRadius: real, minV0Radius: real,
    nSigmaTPCPion: real, nSigmaTPCProton: real, nSigmaTPCKaon: real,
    /** The Lambda mass returned by the PDG database service. */
    lambdaMass: real)

  const DefaultOmegaConfig := OmegaConfig("", 0.97, 0.97, 0.010, 0.5, 1.2, 5.0, 5.0, 5.0, 1.115683)

  /** TPC n-sigma values of a daughter track. */
  datatype DauTrack = DauTrack(tpcNSigmaPi: real, tpcNSigmaPr: real, tpcNSigmaKa: real)

  /** A cascade; the pointing angles are those to the collision's vertex. */
  datatype Cascade = Cascade(
    sign: int, pt: real, casccosPA: real, v0cosPA: real,
    mLambda: real, cascradius: real, v0radius: real, mOmega: real,
    pos: DauTrack, neg: DauTrack, bach: DauTrack)

  datatype OmegaCollision = OmegaCollision(runNumber: int, timestamp: int, globalBC: int, posZ: real)

  /** One initialisation of the trigger service for a run. */
  datatype ZorroLoad = ZorroLoad(runNumber: int, timestamp: int, mask: string)

  datatype MassPoint = MassPoint(pt: real, mass: real)

  datatype OmegaHist = OmegaMinusHist | OmegaPlusHist

  /** The topological and Lambda-mass cuts: only values strictly below a minimum are rejected. */
  function TopologyPasses(cfg: OmegaConfig, c: Cascade): (ok: bool)
    ensures ok <==> c.casccosPA >= cfg.casccospa && c.v0cosPA >= cfg.v0cospa
                    && Abs(c.mLambda - cfg.lambdaMass) <= cfg.v0massWindow
                    && c.cascradius >= cfg.minCascRadius && c.v0radius >= cfg.minV0Radius
  {
    if c.casccosPA < cfg.casccospa then false
    else if c.v0cosPA < cfg.v0cospa then false
    else if Abs(c.mLambda - cfg.lambdaMass) > cfg.v0massWindow then false
    else if c.cascradius < cfg.minCascRadius then false
    else if c.v0radius < cfg.minV0Radius then false
    else true
  }

  /**
   * The dE/dx cuts: the proton is looked for on the positive daughter of a
   * negative cascade and on the negative daughter otherwise, the pion on the
   * other V0 daughter, the kaon always on the bachelor.
   */
  function PidPasses(cfg: OmegaConfig, c: Cascade): (ok: bool)
    ensures c.sign < 0 ==>
              (ok <==> Abs(c.pos.tpcNSigmaPr) <= cfg.nSigmaTPCProton && Abs(c.neg.tpcNSigmaPi) <= cfg.nSigmaTPCPion
                       && Abs(c.bach.tpcNSigmaKa) <= cfg.nSigmaTPCKaon)
    ensures c.sign >= 0 ==>
              (ok <==> Abs(c.neg.tpcNSigmaPr) <= cfg.nSigmaTPCProton && Abs(c.pos.tpcNSigmaPi) <= cfg.nSigmaTPCPion
                       && Abs(c.bach.tpcNSigmaKa) <= cfg.nSigmaTPCKaon)
  {
    var v0Ok :=
      if c.sign < 0 then
        if Abs(c.pos.tpcNSigmaPr) > cfg.nSigmaTPCProton then false
        else if Abs(c.neg.tpcNSigmaPi) > cfg.nSigmaTPCPion then false
        else true
      else
        if Abs(c.neg.tpcNSigmaPr) > cfg.nSigmaTPCProton then false
        else if Abs(c.pos.tpcNSigmaPi) > cfg.nSigmaTPCPion then false
        else true;
    if !v0Ok then false
    else if Abs(c.bach.tpcNSigmaKa) > cfg.nSigmaTPCKaon then false
    else true
  }

  predicate Selected(cfg: OmegaConfig, c: Cascade)
  {
    TopologyPasses(cfg, c) && PidPasses(cfg, c)
  }

  /** The histogram an accepted cascade is filled into. */
  function HistogramFor(sign: int): (h: OmegaHist)
    ensures h == OmegaMinusHist <==> sign < 0
    ensures h == OmegaPlusHist <==> sign >= 0
  {
    if sign < 0 then OmegaMinusHist else OmegaPlusHist
  }

  /** The points the cascade loop fills into histogram `h`, in cascade order. */
  function MassPoints(cfg: OmegaConfig, cs: seq<Cascade>, h: OmegaHist): seq<MassPoint>
  {
    if |cs| == 0 then []
    else
      var c := cs[|cs| - 1];
      MassPoints(cfg, cs[..|cs| - 1], h)
      + (if Selected(cfg, c) && HistogramFor(c.sign) == h then [MassPoint(c.pt, c.mOmega)] else [])
  }

  /** Number of cascades that pass every cut. */
  function CountSelected(cfg: OmegaConfig, cs: seq<Cascade>): nat
  {
    if |cs| == 0 then 0
    else CountSelected(cfg, cs[..|cs| - 1]) + (if Selected(cfg, cs[|cs| - 1]) then 1 else 0)
  }

  /** Each accepted cascade is filled exactly once, into one of the two histograms. */
  lemma {:induction false} EachSelectedFilledOnce(cfg: OmegaConfig, cs: seq<Cascade>)
    ensures |MassPoints(cfg, cs, OmegaMinusHist)| + |MassPoints(cfg, cs, OmegaPlusHist)| == CountSelected(cfg, cs)
    ensures CountSelected(cfg, cs) <= |cs|
  {
    if |cs| > 0 {
      EachSelectedFilledOnce(cfg, cs[..|cs| - 1]);
    }
  }

  /** A point of the OmegaMinus histogram comes from an accepted negative cascade, and conversely for OmegaPlus. */
  lemma {:induction false} PointsComeFromSelectedOfSign(cfg: OmegaConfig, cs: seq<Cascade>, h: OmegaHist, p: MassPoint)
    requires p in MassPoints(cfg, cs, h)
    ensures exists k :: 0 <= k < |cs| && Selected(cfg, cs[k]) && HistogramFor(cs[k].sign) == h
                        && p == MassPoint(cs[k].pt, cs[k].mOmega)
  {
    var n := |cs| - 1;
    if p in MassPoints(cfg, cs[..n], h) {
      PointsComeFromSelectedOfSign(cfg, cs[..n], h, p);
      var k :| 0 <= k < n && Selected(cfg, cs[..n][k]) && HistogramFor(cs[..n][k].sign) == h
               && p == MassPoint(cs[..n][k].pt, cs[..n][k].mOmega);
      assert cs[..n][k] == cs[k];
    } else {
      assert Selected(cfg, cs[n]) && HistogramFor(cs[n].sign) == h;
    }
  }

  /** A cascade exactly on every threshold is accepted: the minima are inclusive. */
  lemma ThresholdsAreInclusive(cfg: OmegaConfig, c: Cascade)
    requires c.casccosPA == cfg.casccospa && c.v0cosPA == cfg.v0cospa
    requires c.mLambda == cfg.lambdaMass + cfg.v0massWindow && cfg.v0massWindow >= 0.0
    requires c.cascradius == cfg.minCascRadius && c.v0radius == cfg.minV0Radius
    ensures TopologyPasses(cfg, c)
  {
  }

  /** The task: its run cache for the trigger service and its histograms. */
  class OmegaTask {
    const cfg: OmegaConfig
    var mRunNumber: int
    /** Initialisations of the trigger service, in order. */
    var zorroLoads: seq<ZorroLoad>
    /** Values filled into `hVertexZRec`. */
    var hVertexZRec: seq<real>
    var hMassOmegaMinus: seq<MassPoint>
    var hMassOmegaPlus: seq<MassPoint>

    /** `init`. */
    constructor (cfg: OmegaConfig)
      ensures this.cfg == cfg && mRunNumber == -1 && zorroLoads == []
      ensures hVertexZRec == [] && hMassOmegaMinus == [] && hMassOmegaPlus == []
    {
      this.cfg := cfg;
      mRunNumber := -1;
      zorroLoads := [];
      hVertexZRec := [];
      hMassOmegaMinus := [];
      hMassOmegaPlus := [];
    }

    /** `initZorro`: the service is set up again only when the run changes, and the run is remembered. */
    method InitZorro(col: OmegaCollision)
      modifies this`mRunNumber, this`zorroLoads
      ensures mRunNumber == col.runNumber
      ensures zorroLoads == if old(mRunNumber) == col.runNumber then old(zorroLoads)
                            else old(zorroLoads) + [ZorroLoad(col.runNumber, col.timestamp, cfg.zorroMask)]
    {
      if mRunNumber == col.runNumber {
        return;
      }
      zorroLoads := zorroLoads + [ZorroLoad(col.runNumber, col.timestamp, cfg.zorroMask)];
      mRunNumber := col.runNumber;
    }

    /** The cascade loop of `process`. */
    method FillCascades(cs: seq<Cascade>)
      modifies this`hMassOmegaMinus, this`hMassOmegaPlus
      ensures hMassOmegaMinus == old(hMassOmegaMinus) + MassPoints(cfg, cs, OmegaMinusHist)
      ensures hMassOmegaPlus == old(hMassOmegaPlus) + MassPoints(cfg, cs, OmegaPlusHist)
    {
      var i := 0;
      while i < |cs|
        invariant 0 <= i <= |cs|
        invariant hMassOmegaMinus == old(hMassOmegaMinus) + MassPoints(cfg, cs[..i], OmegaMinusHist)
        invariant hMassOmegaPlus == old(hMassOmegaPlus) + MassPoints(cfg, cs[..i], OmegaPlusHist)
      {
        assert cs[..i + 1][..i] == cs[..i];
        var c := cs[i];
        if Selected(cfg, c) {
          if c.sign < 0 {
            hMassOmegaMinus := hMassOmegaMinus + [MassPoint(c.pt, c.mOmega)];
          } else {
            hMassOmegaPlus := hMassOmegaPlus + [MassPoint(c.pt, c.mOmega)];
          }
        }
        i := i + 1;
      }
      assert cs[..i] == cs;
    }

    /**
     * `process`. With a trigger mask the event first goes through the
     * trigger service, whose decision for the event's bunch crossing is
     * `zorroSelected`; a rejected event fills nothing. Otherwise the vertex
     * position is filled and then the cascade loop runs.
     */
    method Process(col: OmegaCollision, cs: seq<Cascade>, zorroSelected: bool)
      modifies this`mRunNumber, this`zorroLoads, this`hVertexZRec, this`hMassOmegaMinus, this`hMassOmegaPlus
      ensures cfg.zorroMask == [] ==> mRunNumber == old(mRunNumber) && zorroLoads == old(zorroLoads)
      ensures cfg.zorroMask != [] ==> mRunNumber == col.runNumber
      ensures cfg.zorroMask != [] ==>
        zorroLoads == if old(mRunNumber) == col.runNumber then old(zorroLoads)
                      else old(zorroLoads) + [ZorroLoad(col.runNumber, col.timestamp, cfg.zorroMask)]
      ensures cfg.zorroMask != [] && !zorroSelected ==>
                hVertexZRec == old(hVertexZRec)
                && hMassOmegaMinus == old(hMassOmegaMinus) && hMassOmegaPlus == old(hMassOmegaPlus)
      ensures cfg.zorroMask == [] || zorroSelected ==>
                hVertexZRec == old(hVertexZRec) + [col.posZ]
                && hMassOmegaMinus == old(hMassOmegaMinus) + MassPoints(cfg, cs, OmegaMinusHist)
                && hMassOmegaPlus == old(hMassOmegaPlus) + MassPoints(cfg, cs, OmegaPlusHist)
    {
      if cfg.zorroMask != [] {
        InitZorro(col);
        if !zorroSelected {
          return;
        }
      }
      hVertexZRec := hVertexZRec + [col.posZ];
      FillCascades(cs);
    }
  }
}
