/**
 * The V0 preselector of the label builder workflow. For every V0 it emits a
 * tag row: whether the V0 is worth building, and per species whether it is
 * MC-true and whether its daughters' dE/dx is compatible. Three checks feed
 * the tag: the TPC track quality, the Monte Carlo PDG of the common mother
 * and the TPC dE/dx of the daughters.
 */
module Preselector {
  import opened StraCommon
  import opened McAssociation

  datatype Species = Gamma | K0Short | Lambda | AntiLambda | Hypertriton | AntiHypertriton

  /** One boolean per species, in the order of the tag table's columns. */
  datatype Hyps = Hyps(gamma: bool, k0Short: bool, lambda: bool, antiLambda: bool,
                       hypertriton: bool, antiHypertriton: bool)
  {
    function Has(s: Species): bool
    {
      match s
      case Gamma => gamma
      case K0Short => k0Short
      case Lambda => lambda
      case AntiLambda => antiLambda
      case Hypertriton => hypertriton
      case AntiHypertriton => antiHypertriton
    }
  }

  const AllHyps := Hyps(true, true, true, true, true, true)
  const NoHyps := Hyps(false, false, false, false, false, false)

  /** The flags a check writes through its reference parameters. */
  datatype Flags = Flags(interesting: bool, hyps: Hyps)

  const NoFlags := Flags(false, NoHyps)

  /**
   * The effect of a check's six `if (...) { lIsX = true; lIsInteresting = true; }`
   * statements: each species whose condition `c` holds is marked, and any
   * marked species makes the V0 interesting. Flags already set stay set.
   */
  function SetFlags(f: Flags, c: Hyps): (r: Flags)
    ensures forall s :: r.hyps.Has(s) <==> f.hyps.Has(s) || c.Has(s)
    ensures r.interesting <==> f.interesting || exists s :: c.Has(s)
  {
    HasAny(c);
    var r := Flags(f.interesting || c.gamma || c.k0Short || c.lambda || c.antiLambda || c.hypertriton || c.antiHypertriton,
          Hyps(f.hyps.gamma || c.gamma, f.hyps.k0Short || c.k0Short, f.hyps.lambda || c.lambda,
               f.hyps.antiLambda || c.antiLambda, f.hyps.hypertriton || c.hypertriton,
               f.hyps.antiHypertriton || c.antiHypertriton));
    HasUnion(f.hyps, c, r.hyps);
    r
  }

  lemma HasAny(c: Hyps)
    ensures (exists s :: c.Has(s)) <==>
            c.gamma || c.k0Short || c.lambda || c.antiLambda || c.hypertriton || c.antiHypertriton
  {
    if c.gamma { assert c.Has(Gamma); }
    if c.k0Short { assert c.Has(K0Short); }
    if c.lambda { assert c.Has(Lambda); }
    if c.antiLambda { assert c.Has(AntiLambda); }
    if c.hypertriton { assert c.Has(Hypertriton); }
    if c.antiHypertriton { assert c.Has(AntiHypertriton); }
  }

  lemma HasUnion(a: Hyps, b: Hyps, u: Hyps)
    requires u == Hyps(a.gamma || b.gamma, a.k0Short || b.k0Short, a.lambda || b.lambda,
                       a.antiLambda || b.antiLambda, a.hypertriton || b.hypertriton,
                       a.antiHypertriton || b.antiHypertriton)
    ensures forall s :: u.Has(s) <==> a.Has(s) || b.Has(s)
  {
    forall s ensures u.Has(s) <==> a.Has(s) || b.Has(s) {
      match s
      case Gamma =>
      case K0Short =>
      case Lambda =>
      case AntiLambda =>
      case Hypertriton =>
      case AntiHypertriton =>
    }
  }

  function PdgOf(s: Species): int
  {
    match s
    case Gamma => GammaPdg
    case K0Short => K0ShortPdg
    case Lambda => LambdaPdg
    case AntiLambda => -LambdaPdg
    case Hypertriton => HypertritonPdg
    case AntiHypertriton => -HypertritonPdg
  }

  datatype PreselectorConfig = PreselectorConfig(
    generate: Hyps,          // dIfMCgenerate...
    dEdxPreselect: Hyps,     // ddEdxPreSelect...
    dEdxWindow: real,        // ddEdxPreSelectionWindow
    minCrossedRows: int,     // dTPCNCrossedRows
    onlyBaryons: bool)       // dPreselectOnlyBaryons

  const DefaultConfig := PreselectorConfig(
    Hyps(false, true, true, true, false, false),
    Hyps(false, true, true, true, false, false),
    7.0, 50, false)

  /** A daughter with its TPC crossed rows and its TPC n-sigma per mass hypothesis. */
  datatype PidTrack = PidTrack(tpcNClsCrossedRows: int, nSigmaEl: real, nSigmaPi: real,
                               nSigmaPr: real, nSigmaHe: real)

  datatype PreselV0 = PreselV0(pos: PidTrack, neg: PidTrack, mc: LabeledV0)

  // ---------------------------------------------------------------------
  // Track quality

  predicate Rows(cfg: PreselectorConfig, t: PidTrack)
  {
    t.tpcNClsCrossedRows >= cfg.minCrossedRows
  }

  /**
   * Quality demanded for one species: both daughters, or with only-baryons
   * just the baryon (positive for Lambda and hypertriton, negative for their
   * antiparticles; none for gamma and K0Short).
   */
  predicate QualityFor(cfg: PreselectorConfig, s: Species, pos: PidTrack, neg: PidTrack)
  {
    match s
    case Gamma => Rows(cfg, pos) && Rows(cfg, neg)
    case K0Short => Rows(cfg, pos) && Rows(cfg, neg)
    case Lambda => Rows(cfg, pos) && (Rows(cfg, neg) || cfg.onlyBaryons)
    case Hypertriton => Rows(cfg, pos) && (Rows(cfg, neg) || cfg.onlyBaryons)
    case AntiLambda => Rows(cfg, neg) && (Rows(cfg, pos) || cfg.onlyBaryons)
    case AntiHypertriton => Rows(cfg, neg) && (Rows(cfg, pos) || cfg.onlyBaryons)
  }

  /**
   * The hypothesis flag that guards the quality test of species `s` as
   * written: the antihypertriton test reads the hypertriton flag.
   */
  function QualityFlagAsWritten(s: Species): Species
  {
    if s == AntiHypertriton then Hypertriton else s
  }

  /**
   * `checkTrackQuality` as written: its last test looks at the hypertriton
   * hypothesis where the antihypertriton one is meant.
   */
  function CheckTrackQualityAsWritten(cfg: PreselectorConfig, pos: PidTrack, neg: PidTrack, h: Hyps): (ok: bool)
    ensures ok <==> exists s :: h.Has(QualityFlagAsWritten(s)) && QualityFor(cfg, s, pos, neg)
  {
    var ok := false;
    var ok := if (h.gamma || h.k0Short) && Rows(cfg, pos) && Rows(cfg, neg) then true else ok;
    var ok := if h.lambda && Rows(cfg, pos) && (Rows(cfg, neg) || cfg.onlyBaryons) then true else ok;
    var ok := if h.antiLambda && Rows(cfg, neg) && (Rows(cfg, pos) || cfg.onlyBaryons) then true else ok;
    var ok := if h.hypertriton && Rows(cfg, pos) && (Rows(cfg, neg) || cfg.onlyBaryons) then true else ok;
    var ok := if h.hypertriton && Rows(cfg, neg) && (Rows(cfg, pos) || cfg.onlyBaryons) then true else ok;
    assert ok ==> exists s :: h.Has(QualityFlagAsWritten(s)) && QualityFor(cfg, s, pos, neg) by {
      if h.gamma && Rows(cfg, pos) && Rows(cfg, neg) { assert QualityFor(cfg, Gamma, pos, neg); }
      if h.k0Short && Rows(cfg, pos) && Rows(cfg, neg) { assert QualityFor(cfg, K0Short, pos, neg); }
      if h.lambda && QualityFor(cfg, Lambda, pos, neg) { assert h.Has(QualityFlagAsWritten(Lambda)); }
      if h.antiLambda && QualityFor(cfg, AntiLambda, pos, neg) { assert h.Has(QualityFlagAsWritten(AntiLambda)); }
      if h.hypertriton && QualityFor(cfg, Hypertriton, pos, neg) { assert h.Has(QualityFlagAsWritten(Hypertriton)); }
      if h.hypertriton && QualityFor(cfg, AntiHypertriton, pos, neg) { assert h.Has(QualityFlagAsWritten(AntiHypertriton)); }
    }
    ok
  }

  /** `checkTrackQuality` with the last test on the antihypertriton hypothesis. */
  function CheckTrackQuality(cfg: PreselectorConfig, pos: PidTrack, neg: PidTrack, h: Hyps): (ok: bool)
    ensures ok <==> exists s :: h.Has(s) && QualityFor(cfg, s, pos, neg)
  {
    var ok := false;
    var ok := if (h.gamma || h.k0Short) && Rows(cfg, pos) && Rows(cfg, neg) then true else ok;
    var ok := if h.lambda && Rows(cfg, pos) && (Rows(cfg, neg) || cfg.onlyBaryons) then true else ok;
    var ok := if h.antiLambda && Rows(cfg, neg) && (Rows(cfg, pos) || cfg.onlyBaryons) then true else ok;
    var ok := if h.hypertriton && Rows(cfg, pos) && (Rows(cfg, neg) || cfg.onlyBaryons) then true else ok;
    var ok := if h.antiHypertriton && Rows(cfg, neg) && (Rows(cfg, pos) || cfg.onlyBaryons) then true else ok;
    assert ok ==> exists s :: h.Has(s) && QualityFor(cfg, s, pos, neg) by {
      if h.gamma && Rows(cfg, pos) && Rows(cfg, neg) { assert QualityFor(cfg, Gamma, pos, neg); }
      if h.k0Short && Rows(cfg, pos) && Rows(cfg, neg) { assert QualityFor(cfg, K0Short, pos, neg); }
      if h.lambda && QualityFor(cfg, Lambda, pos, neg) { assert h.Has(Lambda); }
      if h.antiLambda && QualityFor(cfg, AntiLambda, pos, neg) { assert h.Has(AntiLambda); }
      if h.hypertriton && QualityFor(cfg, Hypertriton, pos, neg) { assert h.Has(Hypertriton); }
      if h.antiHypertriton && QualityFor(cfg, AntiHypertriton, pos, neg) { assert h.Has(AntiHypertriton); }
    }
    ok
  }

  /** The two versions differ only through the antihypertriton hypothesis. */
  lemma QualityAgreesWhenHypertritonFlagsMatch(cfg: PreselectorConfig, pos: PidTrack, neg: PidTrack, h: Hyps)
    requires h.hypertriton == h.antiHypertriton
    ensures CheckTrackQualityAsWritten(cfg, pos, neg, h) == CheckTrackQuality(cfg, pos, neg, h)
  {
    if CheckTrackQualityAsWritten(cfg, pos, neg, h) {
      var s :| h.Has(QualityFlagAsWritten(s)) && QualityFor(cfg, s, pos, neg);
      assert h.Has(s);
    }
    if CheckTrackQuality(cfg, pos, neg, h) {
      var s :| h.Has(s) && QualityFor(cfg, s, pos, neg);
      assert h.Has(QualityFlagAsWritten(s));
    }
  }

  /**
   * The input that shows the difference: only the antihypertriton
   * hypothesis, only-baryons on, a good negative (nucleus) track and a short
   * positive one. The intended check accepts, the written one rejects.
   */
  lemma QualityAntiHypertritonCounterexample()
    ensures var cfg := DefaultConfig.(onlyBaryons := true);
            var pos := PidTrack(10, 0.0, 0.0, 0.0, 0.0);
            var neg := PidTrack(80, 0.0, 0.0, 0.0, 0.0);
            var h := NoHyps.(antiHypertriton := true);
            CheckTrackQuality(cfg, pos, neg, h) && !CheckTrackQualityAsWritten(cfg, pos, neg, h)
  {
    var cfg := DefaultConfig.(onlyBaryons := true);
    var pos := PidTrack(10, 0.0, 0.0, 0.0, 0.0);
    var neg := PidTrack(80, 0.0, 0.0, 0.0, 0.0);
    var h := NoHyps.(antiHypertriton := true);
    assert h.Has(AntiHypertriton) && QualityFor(cfg, AntiHypertriton, pos, neg);
  }

  /** Dropping hypotheses never turns a rejected V0 into an accepted one. */
  lemma QualityMonotone(cfg: PreselectorConfig, pos: PidTrack, neg: PidTrack, h1: Hyps, h2: Hyps)
    requires forall s :: h1.Has(s) ==> h2.Has(s)
    ensures CheckTrackQuality(cfg, pos, neg, h1) ==> CheckTrackQuality(cfg, pos, neg, h2)
  {
    if CheckTrackQuality(cfg, pos, neg, h1) {
      var s :| h1.Has(s) && QualityFor(cfg, s, pos, neg);
      assert h2.Has(s);
    }
  }

  /** With every hypothesis on: both tracks good, or with only-baryons either one. */
  lemma QualityAllHyps(cfg: PreselectorConfig, pos: PidTrack, neg: PidTrack)
    ensures CheckTrackQuality(cfg, pos, neg, AllHyps) <==>
              (Rows(cfg, pos) && Rows(cfg, neg)) || (cfg.onlyBaryons && (Rows(cfg, pos) || Rows(cfg, neg)))
  {
    if Rows(cfg, pos) && (Rows(cfg, neg) || cfg.onlyBaryons) {
      assert AllHyps.Has(Lambda) && QualityFor(cfg, Lambda, pos, neg);
    }
    if Rows(cfg, neg) && (Rows(cfg, pos) || cfg.onlyBaryons) {
      assert AllHyps.Has(AntiLambda) && QualityFor(cfg, AntiLambda, pos, neg);
    }
  }

  // ---------------------------------------------------------------------
  // Monte Carlo PDG check

  /**
   * `checkPDG` applied to the PDG code left by the association check: it
   * sets the flag of the species with that code when that species is to be
   * generated, and never clears a flag.
   */
  function CheckPdg(cfg: PreselectorConfig, pdg: int, f: Flags): (r: Flags)
    ensures forall s :: r.hyps.Has(s) <==> f.hyps.Has(s) || (pdg == PdgOf(s) && cfg.generate.Has(s))
    ensures r.interesting <==> f.interesting || exists s :: pdg == PdgOf(s) && cfg.generate.Has(s)
  {
    var g := cfg.generate;
    var c := Hyps(pdg == 22 && g.gamma, pdg == 310 && g.k0Short, pdg == 3122 && g.lambda,
                  pdg == -3122 && g.antiLambda, pdg == 1010010030 && g.hypertriton,
                  pdg == -1010010030 && g.antiHypertriton);
    assert forall s :: c.Has(s) <==> pdg == PdgOf(s) && g.Has(s);
    SetFlags(f, c)
  }

  /** Starting from cleared flags, the PDG check marks at most one species. */
  lemma PdgMarksAtMostOneSpecies(cfg: PreselectorConfig, pdg: int, s1: Species, s2: Species)
    requires CheckPdg(cfg, pdg, NoFlags).hyps.Has(s1) && CheckPdg(cfg, pdg, NoFlags).hyps.Has(s2)
    ensures s1 == s2
  {
    assert !NoHyps.Has(s1) && !NoHyps.Has(s2);
  }

  // ---------------------------------------------------------------------
  // dE/dx check

  predicate InWindow(cfg: PreselectorConfig, nSigma: real)
  {
    Abs(nSigma) < cfg.dEdxWindow
  }

  /**
   * dE/dx compatibility per species. With only-baryons the pion test of a
   * (anti)Lambda is waived, and for (anti)hypertriton the helium test.
   */
  predicate DedxCompatible(cfg: PreselectorConfig, s: Species, pos: PidTrack, neg: PidTrack)
  {
    match s
    case Gamma => InWindow(cfg, neg.nSigmaEl) && InWindow(cfg, pos.nSigmaEl)
    case K0Short => InWindow(cfg, neg.nSigmaPi) && InWindow(cfg, pos.nSigmaPi)
    case Lambda => (InWindow(cfg, neg.nSigmaPi) || cfg.onlyBaryons) && InWindow(cfg, pos.nSigmaPr)
    case AntiLambda => InWindow(cfg, neg.nSigmaPr) && (InWindow(cfg, pos.nSigmaPi) || cfg.onlyBaryons)
    case Hypertriton => InWindow(cfg, neg.nSigmaPi) && (InWindow(cfg, pos.nSigmaHe) || cfg.onlyBaryons)
    case AntiHypertriton => (InWindow(cfg, neg.nSigmaHe) || cfg.onlyBaryons) && InWindow(cfg, pos.nSigmaPi)
  }

  /** The six conditions of `checkdEdx`, in the order of the tag columns. */
  function DedxConditions(cfg: PreselectorConfig, pos: PidTrack, neg: PidTrack): Hyps
  {
    var p := cfg.dEdxPreselect;
    var w := cfg.dEdxWindow;
    Hyps(Abs(neg.nSigmaEl) < w && Abs(pos.nSigmaEl) < w && p.gamma,
         Abs(neg.nSigmaPi) < w && Abs(pos.nSigmaPi) < w && p.k0Short,
         (Abs(neg.nSigmaPi) < w || cfg.onlyBaryons) && Abs(pos.nSigmaPr) < w && p.lambda,
         Abs(neg.nSigmaPr) < w && (Abs(pos.nSigmaPi) < w || cfg.onlyBaryons) && p.antiLambda,
         Abs(neg.nSigmaPi) < w && (Abs(pos.nSigmaHe) < w || cfg.onlyBaryons) && p.hypertriton,
         (Abs(neg.nSigmaHe) < w || cfg.onlyBaryons) && Abs(pos.nSigmaPi) < w && p.antiHypertriton)
  }

  lemma DedxConditionsPerSpecies(cfg: PreselectorConfig, pos: PidTrack, neg: PidTrack)
    ensures forall s :: DedxConditions(cfg, pos, neg).Has(s) <==>
                        cfg.dEdxPreselect.Has(s) && DedxCompatible(cfg, s, pos, neg)
  {
    forall s ensures DedxConditions(cfg, pos, neg).Has(s) <==>
                     cfg.dEdxPreselect.Has(s) && DedxCompatible(cfg, s, pos, neg) {
      match s
      case Gamma =>
      case K0Short =>
      case Lambda =>
      case AntiLambda =>
      case Hypertriton =>
      case AntiHypertriton =>
    }
  }

  /** `checkdEdx`: sets the flag of every enabled species whose dE/dx is compatible. */
  function CheckDedx(cfg: PreselectorConfig, pos: PidTrack, neg: PidTrack, f: Flags): (r: Flags)
    ensures forall s :: r.hyps.Has(s) <==> f.hyps.Has(s) || (cfg.dEdxPreselect.Has(s) && DedxCompatible(cfg, s, pos, neg))
    ensures r.interesting <==> f.interesting || exists s :: cfg.dEdxPreselect.Has(s) && DedxCompatible(cfg, s, pos, neg)
  {
    DedxConditionsPerSpecies(cfg, pos, neg);
    SetFlags(f, DedxConditions(cfg, pos, neg))
  }

  /** A species whose dE/dx preselection is off is never marked by the dE/dx check. */
  lemma DedxRespectsSwitches(cfg: PreselectorConfig, pos: PidTrack, neg: PidTrack, s: Species)
    requires !cfg.dEdxPreselect.Has(s)
    ensures !CheckDedx(cfg, pos, neg, NoFlags).hyps.Has(s)
  {
    assert !NoHyps.Has(s);
  }

  // ---------------------------------------------------------------------
  // The four process functions, one tag row per V0.

  datatype V0TagRow = V0TagRow(isInteresting: bool, isTrue: Hyps, isdEdx: Hyps)

  datatype Mode = BuildAll | BuildMCAssociated | BuildValiddEdx | BuildValiddEdxMCAssociated

  function PdgFlags(cfg: PreselectorConfig, v0: PreselV0): Flags
  {
    CheckPdg(cfg, AssociatedPdg(v0.mc), NoFlags)
  }

  function DedxFlags(cfg: PreselectorConfig, v0: PreselV0): Flags
  {
    CheckDedx(cfg, v0.pos, v0.neg, NoFlags)
  }

  /** The tag row of one V0 in each mode, with `checkTrackQuality` as written. */
  function TagRow(mode: Mode, cfg: PreselectorConfig, v0: PreselV0): V0TagRow
  {
    match mode
    case BuildAll =>
      V0TagRow(CheckTrackQualityAsWritten(cfg, v0.pos, v0.neg, AllHyps), AllHyps, AllHyps)
    case BuildMCAssociated =>
      var t := PdgFlags(cfg, v0);
      V0TagRow(t.interesting && CheckTrackQualityAsWritten(cfg, v0.pos, v0.neg, AllHyps), t.hyps, AllHyps)
    case BuildValiddEdx =>
      var d := DedxFlags(cfg, v0);
      V0TagRow(d.interesting && CheckTrackQualityAsWritten(cfg, v0.pos, v0.neg, d.hyps), AllHyps, d.hyps)
    case BuildValiddEdxMCAssociated =>
      var t := PdgFlags(cfg, v0);
      var d := DedxFlags(cfg, v0);
      V0TagRow(t.interesting && d.interesting && CheckTrackQualityAsWritten(cfg, v0.pos, v0.neg, d.hyps), t.hyps, d.hyps)
  }

  /**
   * The modes that test quality under every hypothesis are untouched by the
   * line-682 slip: there both hypertriton flags are set.
   */
  lemma AllHypsModesUseIntendedQuality(cfg: PreselectorConfig, v0: PreselV0)
    ensures TagRow(BuildAll, cfg, v0).isInteresting <==> CheckTrackQuality(cfg, v0.pos, v0.neg, AllHyps)
    ensures TagRow(BuildMCAssociated, cfg, v0).isInteresting <==>
              PdgFlags(cfg, v0).interesting && CheckTrackQuality(cfg, v0.pos, v0.neg, AllHyps)
  {
    QualityAgreesWhenHypertritonFlagsMatch(cfg, v0.pos, v0.neg, AllHyps);
  }

  /**
   * In dE/dx mode, with only the antihypertriton preselection on, a V0 that
   * is dE/dx-compatible with it and whose two daughters both pass the
   * crossed-rows cut is still not tagged: the quality test of that
   * hypothesis reads the (unset) hypertriton flag.
   */
  lemma DedxModeDropsAntiHypertriton(cfg: PreselectorConfig, v0: PreselV0)
    requires cfg.dEdxPreselect == NoHyps.(antiHypertriton := true)
    requires DedxCompatible(cfg, AntiHypertriton, v0.pos, v0.neg)
    requires Rows(cfg, v0.pos) && Rows(cfg, v0.neg)
    ensures DedxFlags(cfg, v0).hyps.antiHypertriton
    ensures !TagRow(BuildValiddEdx, cfg, v0).isInteresting
    ensures TagRow(BuildValiddEdx, cfg, v0).isdEdx == NoHyps.(antiHypertriton := true)
  {
    assert cfg.dEdxPreselect.Has(AntiHypertriton);
    var d := DedxFlags(cfg, v0);
    assert forall s :: d.hyps.Has(s) ==> s == AntiHypertriton by {
      forall s | d.hyps.Has(s) ensures s == AntiHypertriton {
        assert !NoHyps.Has(s);
      }
    }
  }

  /** The loop over the V0 table of the enabled process function. */
  method Preselect(mode: Mode, cfg: PreselectorConfig, v0s: seq<PreselV0>) returns (tags: seq<V0TagRow>)
    ensures |tags| == |v0s|
    ensures forall i :: 0 <= i < |v0s| ==> tags[i] == TagRow(mode, cfg, v0s[i])
  {
    tags := [];
    var i := 0;
    while i < |v0s|
      invariant 0 <= i <= |v0s|
      invariant tags == seq(i, k requires 0 <= k < i => TagRow(mode, cfg, v0s[k]))
    {
      tags := tags + [TagRow(mode, cfg, v0s[i])];
      i := i + 1;
    }
  }

  /**
   * In MC-associated mode a V0 is built only when its daughters share a
   * mother of a species that is to be generated, and that species alone is
   * marked true.
   */
  lemma McAssociatedSelectsTrueSpecies(cfg: PreselectorConfig, v0: PreselV0)
    requires TagRow(BuildMCAssociated, cfg, v0).isInteresting
    ensures CommonMother(v0.mc).Some?
    ensures exists s :: cfg.generate.Has(s) && CommonMother(v0.mc).value.pdgCode == PdgOf(s)
                        && TagRow(BuildMCAssociated, cfg, v0).isTrue.Has(s)
    ensures forall s :: TagRow(BuildMCAssociated, cfg, v0).isTrue.Has(s) ==> CommonMother(v0.mc).value.pdgCode == PdgOf(s)
  {
    var pdg := AssociatedPdg(v0.mc);
    assert forall s :: !NoHyps.Has(s);
    var s :| pdg == PdgOf(s) && cfg.generate.Has(s);
    assert pdg != -1;
  }

  /** With dE/dx and MC both required, a built V0 passes each of them on its own. */
  lemma CombinedModeIsConjunction(cfg: PreselectorConfig, v0: PreselV0)
    ensures TagRow(BuildValiddEdxMCAssociated, cfg, v0).isInteresting <==>
              TagRow(BuildValiddEdx, cfg, v0).isInteresting && PdgFlags(cfg, v0).interesting
  {
  }

  /**
   * A V0 tagged by a dE/dx mode is dE/dx-compatible with an enabled species
   * whose flag, as written, guards a quality test the V0 passes.
   */
  lemma DedxModeWitness(cfg: PreselectorConfig, v0: PreselV0)
    requires TagRow(BuildValiddEdx, cfg, v0).isInteresting
    ensures exists s :: cfg.dEdxPreselect.Has(QualityFlagAsWritten(s))
                        && DedxCompatible(cfg, QualityFlagAsWritten(s), v0.pos, v0.neg)
                        && QualityFor(cfg, s, v0.pos, v0.neg)
  {
    var d := DedxFlags(cfg, v0);
    var s :| d.hyps.Has(QualityFlagAsWritten(s)) && QualityFor(cfg, s, v0.pos, v0.neg);
    assert !NoHyps.Has(QualityFlagAsWritten(s));
  }

  /** As written, with only-baryons the hypertriton dE/dx test ignores the helium track altogether. */
  lemma HypertritonDedxIgnoresHelium(cfg: PreselectorConfig, pos: PidTrack, neg: PidTrack)
    requires cfg.onlyBaryons && cfg.dEdxPreselect.hypertriton
    requires InWindow(cfg, neg.nSigmaPi)
    ensures CheckDedx(cfg, pos, neg, NoFlags).hyps.hypertriton
  {
    assert cfg.dEdxPreselect.Has(Hypertriton) && DedxCompatible(cfg, Hypertriton, pos, neg);
  }

  /**
   * The baryon daughter of each species with a baryon in its decay: the
   * proton or the helium-3 nucleus, positive for particles and negative for
   * antiparticles. Gamma and K0Short have none.
   */
  predicate BaryonWindow(cfg: PreselectorConfig, s: Species, pos: PidTrack, neg: PidTrack)
  {
    match s
    case Gamma => false
    case K0Short => false
    case Lambda => InWindow(cfg, pos.nSigmaPr)
    case AntiLambda => InWindow(cfg, neg.nSigmaPr)
    case Hypertriton => InWindow(cfg, pos.nSigmaHe)
    case AntiHypertriton => InWindow(cfg, neg.nSigmaHe)
  }

  /**
   * dE/dx compatibility as the only-baryons option describes it: the option
   * waives the test of the meson daughter and keeps the baryon's, for the
   * (anti)hypertriton as for the (anti)Lambda.
   */
  predicate DedxCompatibleIntended(cfg: PreselectorConfig, s: Species, pos: PidTrack, neg: PidTrack)
  {
    match s
    case Gamma => InWindow(cfg, neg.nSigmaEl) && InWindow(cfg, pos.nSigmaEl)
    case K0Short => InWindow(cfg, neg.nSigmaPi) && InWindow(cfg, pos.nSigmaPi)
    case Lambda => (InWindow(cfg, neg.nSigmaPi) || cfg.onlyBaryons) && InWindow(cfg, pos.nSigmaPr)
    case AntiLambda => InWindow(cfg, neg.nSigmaPr) && (InWindow(cfg, pos.nSigmaPi) || cfg.onlyBaryons)
    case Hypertriton => (InWindow(cfg, neg.nSigmaPi) || cfg.onlyBaryons) && InWindow(cfg, pos.nSigmaHe)
    case AntiHypertriton => InWindow(cfg, neg.nSigmaHe) && (InWindow(cfg, pos.nSigmaPi) || cfg.onlyBaryons)
  }

  /**
   * With only-baryons the intended test of a species with a baryon daughter
   * is exactly that daughter's window; without it, both versions agree.
   */
  lemma IntendedDedxTestsOnlyBaryons(cfg: PreselectorConfig, s: Species, pos: PidTrack, neg: PidTrack)
    ensures cfg.onlyBaryons && s != Gamma && s != K0Short ==>
              (DedxCompatibleIntended(cfg, s, pos, neg) <==> BaryonWindow(cfg, s, pos, neg))
    ensures !cfg.onlyBaryons ==> (DedxCompatibleIntended(cfg, s, pos, neg) <==> DedxCompatible(cfg, s, pos, neg))
  {
    match s
    case Gamma =>
    case K0Short =>
    case Lambda =>
    case AntiLambda =>
    case Hypertriton =>
    case AntiHypertriton =>
  }

  /**
   * As written, with only-baryons a hypertriton candidate whose helium-3
   * track is far outside the window is still marked, and so is an
   * antihypertriton one; the intended test rejects both.
   */
  lemma HypertritonDedxCounterexample()
    ensures var cfg := DefaultConfig.(onlyBaryons := true);
            var pion := PidTrack(80, 0.0, 0.0, 0.0, 20.0);
            DedxCompatible(cfg, Hypertriton, pion, pion) && !DedxCompatibleIntended(cfg, Hypertriton, pion, pion)
            && DedxCompatible(cfg, AntiHypertriton, pion, pion)
            && !DedxCompatibleIntended(cfg, AntiHypertriton, pion, pion)
  {
  }
}
