# Strangeness V0 builders and helpers: a Dafny model

This project models the core of the light-flavour strangeness reconstruction
in O2Physics, the analysis framework of the ALICE experiment. A V0 is a
neutral particle (K0S, Lambda, anti-Lambda, hypertriton) that decays into a
positive and a negative track. The model covers:

- **The two V0 builders**: the original one in
  `PWGLF/TableProducer/lambdakzerobuilder.cxx` and the label-builder variant
  in `PWGLF/TableProducer/lambdakzerolabelbuilder.cxx`.
  - Each candidate walks a chain of stages: all, TPC refit, (crossed rows),
    DCA to the primary vertex, vertex fit, DCA between the daughters, cosine
    of the pointing angle, radius.
  - Each stage it passes bumps one counter.
  - An exception thrown by the fitter is counted and rejects the candidate.
  - Accepted candidates are emitted as V0Data rows, with covariance rows
    when those are requested.
- **The threshold negotiation at startup.** In autodetect mode the builder
  reads the option defaults of every device that consumes its tables and
  takes the loosest: a minimum for cosPA, the DCAs to the primary vertex
  and the radius, and a maximum for the DCA between the daughters.
- **The run-change field setup** (`initCCDB`).
- **The Monte Carlo tools**: the label and tag builders (the common-mother
  search), the V0 → V0Data link table, and the preselector's quality, PDG
  and dE/dx checks with its four processing modes.
- **The bookkeeping of `strangenessbuilder.cxx`**: the enabled-table flags,
  the V0 → cascade usage map, and the per-batch gating.
- **Three analysis-side tasks**:
  - the reconstruction study `straRecoStudy.cxx`: stable descending argsort,
    per-collision aggregation, Y-axis offset, event-selection counters, and
    the V0 and cascade selection nests;
  - the Omega example `omegaExample.cxx`;
  - the two grouping benchmarks.

The DCA fitter is modelled as an oracle: it either throws, or returns a
number of candidates together with the vertex, its chi2 and the daughter
momenta. The pointing-angle function, the square root of a sum of squares
and `sqrt` are uninterpreted functions, carried in a `Geometry` record. The
task-specific part of the workflow description is a list of device records:
name, input bindings, options.

Mutable task state becomes classes:

- `LambdaKzeroBuilder.Builder` and `LabelBuilder.Builder` own the `v0stats`
  counters (an array), the exception and event counters, the run cache, the
  output tables and the QA histograms.
- `Builder.Valid()` keeps the counters non-increasing along the stages, with
  every caught exception counted between the DCA-to-PV stage and the next
  one. The histograms keep the same shape.
- Histograms are modelled as sequences of bins, or as sequences of fills.
  Output tables are sequences of rows.

With no subscribing consumer, autodetect mode sets the sentinels 100 and −100
rather than keeping the builder's defaults
(`AutoDetect.NoSubscriberGivesSentinels`).

The four process members that run into the source slips listed under
"## Findings" (the preselector's tag rows, the label builder's field
override and the cascade loop of `straRecoStudy.cxx`) follow the code as
written. The corrected definitions stand beside them, each with the property
the authors evidently meant.

## Model

| member | source | states |
|---|---|---|
| StraCommon.TailBumps | PWGLF/TableProducer/lambdakzerobuilder.cxx:421-471 | the stages bumped after the DCA-to-PV stage: DCA-between-daughters iff the fit gave a candidate and the DCA is at most the threshold, cosPA iff that and cosPA is at least the threshold, radius iff that and radius is at least the threshold |
| StraCommon.AcceptedScratchIsFresh | PWGLF/TableProducer/lambdakzerobuilder.cxx:433-471 | a candidate that reaches the last stage carries exactly the fitted values and the two daughter DCAs, nothing left over from the previous candidate |
| StraCommon.Bump | PWGLF/TableProducer/lambdakzerobuilder.cxx:386-471 | a candidate reaching k stages adds one to each of the first k counters and leaves the rest |
| StraCommon.BumpKeepsStageCounts | PWGLF/TableProducer/lambdakzerobuilder.cxx:421-455 | bumping a prefix keeps the counters non-increasing; an exception counted with a stop at the fit stage keeps exceptions ≤ v0stats[DCAxy] − v0stats[DCADau] |
| StraCommon.StageCountsAdd | PWGLF/TableProducer/lambdakzerobuilder.cxx:187-196 | adding one registry into the criteria histogram keeps the histogram non-increasing with its exceptions bounded the same way |
| StraCommon.LRound | PWGLF/TableProducer/lambdakzerobuilder.cxx:369 | rounding to the nearest integer: within one half, the sign is kept, and a halfway value is rounded away from zero |
| AutoDetect.Loosen | PWGLF/TableProducer/lambdakzerobuilder.cxx:258-287 | one update of a loosest value is the minimum (or maximum) of the current value and the requested one |
| AutoDetect.Negotiate | PWGLF/TableProducer/lambdakzerobuilder.cxx:230-309 | the nested device/input/option loops compute exactly the closed-form loosest thresholds, and the covariance switch is on iff some device subscribes to V0Covs |
| AutoDetect.ScanOptionsLoosest | PWGLF/TableProducer/lambdakzerobuilder.cxx:256-288 | the fold over one device's options gives the loosest of the start value and every value the device requests for that option |
| AutoDetect.ScanInputsLoosest | PWGLF/TableProducer/lambdakzerobuilder.cxx:250-295 | over one device's inputs: every V0Datas subscription contributes the device's requests |
| AutoDetect.ScanDevicesLoosest | PWGLF/TableProducer/lambdakzerobuilder.cxx:248-296 | the fold over all devices gives the loosest of the sentinel and every value requested by a subscriber, with the initializer and the multistrange builder left out |
| AutoDetect.LoosestUnique | PWGLF/TableProducer/lambdakzerobuilder.cxx:258-287 | the loosest value of a set of requests is unique |
| AutoDetect.ScanDevicesOrderIndependent | PWGLF/TableProducer/lambdakzerobuilder.cxx:248-296 | the negotiated threshold does not depend on the order of the devices |
| AutoDetect.LoosestOrderIndependent | PWGLF/TableProducer/lambdakzerobuilder.cxx:230-309 | all five negotiated thresholds do not depend on the order of the devices |
| AutoDetect.ScanDevicesNoSubscriber | PWGLF/TableProducer/lambdakzerobuilder.cxx:248-296 | with no V0Datas subscriber the fold returns its start value |
| AutoDetect.NoSubscriberGivesSentinels | PWGLF/TableProducer/lambdakzerobuilder.cxx:230-309 | with no V0Datas subscriber the thresholds are the sentinels 100 / −100, not the builder defaults |
| AutoDetect.MultistrangeBuilderIgnored | PWGLF/TableProducer/lambdakzerobuilder.cxx:251-254 | the multistrange builder changes no threshold, but its V0Covs subscription still switches covariances on |
| AutoDetect.OptionNamesDistinct | PWGLF/TableProducer/lambdakzerobuilder.cxx:258-286 | the five option names are pairwise distinct, so each option feeds one threshold |
| AutoDetect.TwoConsumersExample | PWGLF/TableProducer/lambdakzerobuilder.cxx:230-309 | two consumers asking for radius 0.5 / 0.9 and dcav0dau 1.0 / 1.5 get radius 0.5 and dcav0dau 1.5; a threshold nobody asks for stays at 100 |
| LambdaKzeroBuilder.MatCorrFor | PWGLF/TableProducer/lambdakzerobuilder.cxx:335-339 | material correction: TGeo iff the type is 1, look-up table iff it is 2, none otherwise |
| LambdaKzeroBuilder.AcceptedIffAllCuts | PWGLF/TableProducer/lambdakzerobuilder.cxx:386-471 | a candidate reaches the radius stage iff it passes every cut: refit, crossed rows, both DCAs to PV (≥, so equality passes), a usable fit, DCA between daughters ≤, cosPA ≥, radius ≥ |
| LambdaKzeroBuilder.EmittedRowsAreAccepted | PWGLF/TableProducer/lambdakzerobuilder.cxx:487-504 | the number of rows emitted in a batch equals the radius-stage count, and every row comes from a V0 of the batch that passes every cut |
| LambdaKzeroBuilder.PrefixStep | PWGLF/TableProducer/lambdakzerobuilder.cxx:487-504 | one more V0 extends the rows, the ids, the exception count and every stage count by exactly its own contribution |
| LambdaKzeroBuilder.StageTotalsKeepCounts | PWGLF/TableProducer/lambdakzerobuilder.cxx:386-471 | after any batch the stage counts are non-increasing and exceptions ≤ v0stats[DCAxy] − v0stats[DCADau] |
| LambdaKzeroBuilder.FieldFor | PWGLF/TableProducer/lambdakzerobuilder.cxx:343-379 | the field is undefined only when neither GRP object exists (a fatal error); an input ≥ −990 overrides the conditions; otherwise the GRPObject nominal field wins, and without it the GRPMagField current gives a whole number of kG within one half of 5·I/30000 |
| LambdaKzeroBuilder.FieldFromCurrentExample | PWGLF/TableProducer/lambdakzerobuilder.cxx:354-371 | 30000 A gives 5 kG, −15000 A gives −3 kG, and the GRP object takes precedence over the magnet current |
| LambdaKzeroBuilder.Builder.constructor | PWGLF/TableProducer/lambdakzerobuilder.cxx:141-148 | a fresh builder satisfies the counter invariant with empty output tables |
| LambdaKzeroBuilder.Builder.ResetHistos | PWGLF/TableProducer/lambdakzerobuilder.cxx:179-185 | all stage counters, the exception counter and the event counter are zero |
| LambdaKzeroBuilder.Builder.FillHistos | PWGLF/TableProducer/lambdakzerobuilder.cxx:187-196 | the event and exception histograms gain their counters; bin i of the criteria histogram gains counter i |
| LambdaKzeroBuilder.Builder.Init | PWGLF/TableProducer/lambdakzerobuilder.cxx:198-341 | startup succeeds iff exactly one of the three process flags is on; on success the configuration is the negotiated one and the material correction follows the type; counters reset |
| LambdaKzeroBuilder.Builder.InitCcdb | PWGLF/TableProducer/lambdakzerobuilder.cxx:343-379 | nothing happens for the cached run; otherwise the field is set from the conditions or the override, and the run is cached, unless no GRP object exists |
| LambdaKzeroBuilder.Builder.BuildV0Candidate | PWGLF/TableProducer/lambdakzerobuilder.cxx:382-474 | bumps exactly the stages the candidate reaches, returns true iff it reached the radius stage, counts one exception iff the fitter threw, and keeps the invariant |
| LambdaKzeroBuilder.Builder.StagesBeforeFit | PWGLF/TableProducer/lambdakzerobuilder.cxx:385-413 | the all, refit, crossed-rows and DCA-to-PV stages: returns true iff all four pass, and the counters are those of the stages the candidate reaches (all four when it passes) |
| LambdaKzeroBuilder.Builder.FitTail | PWGLF/TableProducer/lambdakzerobuilder.cxx:421-471 | the fit and the three topological stages bump the counters the fit outcome determines and fill the candidate |
| LambdaKzeroBuilder.Builder.BuildStrangenessTables | PWGLF/TableProducer/lambdakzerobuilder.cxx:477-535 | appends exactly the accepted V0s' rows (covariance rows iff requested), moves the counters into the histograms and resets them |
| LambdaKzeroBuilder.Builder.BuildAll | PWGLF/TableProducer/lambdakzerobuilder.cxx:487-530 | the V0 loop adds each stage's count, the exceptions and exactly the accepted rows |
| LambdaKzeroBuilder.Builder.BuildAndEmit | PWGLF/TableProducer/lambdakzerobuilder.cxx:487-530 | one V0: its stage bumps, its exception, and its row iff accepted |
| LambdaKzeroBuilder.Builder.Process | PWGLF/TableProducer/lambdakzerobuilder.cxx:537-557 | after the run check the batch's accepted rows and covariance ids are appended, the run is cached, the event, exception and criteria histograms gain the counters plus the batch's stage counts, and the counters are reset; without field information nothing is built and the counters and histograms are untouched |
| LambdaKzeroBuilder.Builder.ProcessAssociated | PWGLF/TableProducer/lambdakzerobuilder.cxx:559-567 | the same, run cache included, over the V0s whose tag is positive only |
| LambdaKzeroBuilder.PositiveIndices | PWGLF/TableProducer/lambdakzerobuilder.cxx:139 | the positions of the positive tags: increasing, each tag positive, and every positive tag's position present |
| LambdaKzeroBuilder.TaggedAtPositiveIndices | PWGLF/TableProducer/lambdakzerobuilder.cxx:139 | the tagged filter yields exactly the V0s at the positive tags' positions, in table order |
| LambdaKzeroBuilder.TaggedKeepsExactlyPositive | PWGLF/TableProducer/lambdakzerobuilder.cxx:139 | every V0 with a positive tag is kept, and each kept V0 has a positive tag |
| LambdaKzeroBuilder.FilterTagged | PWGLF/TableProducer/lambdakzerobuilder.cxx:139 | the filter loop yields exactly the tagged V0s, in order |
| LambdaKzeroBuilder.NoConsumerRejectsEverything | PWGLF/TableProducer/lambdakzerobuilder.cxx:230-309 | in autodetect mode with no consumer, the daughter DCA is non-negative, so the −100 `dcav0dau` sentinel stops every candidate before the DCA-between-daughters stage |
| McAssociation.LastCommonMotherSpec | PWGLF/TableProducer/lambdakzerobuilder.cxx:600-606 | the nested loop's result is absent iff no negative-daughter mother is also a positive-daughter mother; otherwise it is the last such mother |
| McAssociation.FindCommonMother | PWGLF/TableProducer/lambdakzerobuilder.cxx:595-608 | the loops over both mother lists find that mother |
| McAssociation.V0Label | PWGLF/TableProducer/lambdakzerobuilder.cxx:587-611 | the label is −1 iff there is no common mother, otherwise the common mother's global index |
| McAssociation.V0Tag | PWGLF/TableProducer/lambdakzerobuilder.cxx:639-666 | the tag is 0 or 1, and 1 iff the common mother's PDG code is 310, ±3122 or ±1010010030 |
| McAssociation.AssociateMothers | PWGLF/TableProducer/lambdakzerobuilder.cxx:587-608 | one common-mother lookup per V0, in table order |
| McAssociation.BuildV0Labels | PWGLF/TableProducer/lambdakzerobuilder.cxx:585-613 | one label row per V0, in table order |
| McAssociation.BuildV0Tags | PWGLF/TableProducer/lambdakzerobuilder.cxx:637-668 | one tag row per V0, in table order |
| McAssociation.LabelIsSharedMother | PWGLF/TableProducer/lambdakzerobuilder.cxx:595-606 | a non-negative label is the index of a mother of both daughters |
| McAssociation.UnassociatedV0 | PWGLF/TableProducer/lambdakzerobuilder.cxx:595-666 | daughters with disjoint mothers get label −1 and tag 0 |
| V0DataLink.LinkSpecEntry | PWGLF/TableProducer/lambdakzerobuilder.cxx:680-692 | entry i is −1 iff no V0Data row has v0Id i; otherwise it is the last such row's index |
| V0DataLink.LinkInvertsV0Id | PWGLF/TableProducer/lambdakzerolabelbuilder.cxx:879-891 | when v0Ids are distinct, the link is the inverse of v0Id |
| V0DataLink.BuildLink | PWGLF/TableProducer/lambdakzerobuilder.cxx:680-692 | the three loops of the link builder, with a sized vector, produce exactly that link |
| V0DataLink.LinkAsWritten | PWGLF/TableProducer/lambdakzerobuilder.cxx:683-686 | with `reserve` the vector stays empty, so only the empty V0 table is well defined |
| V0DataLink.LinkAsWrittenUndefined | PWGLF/TableProducer/lambdakzerobuilder.cxx:683-686 | any non-empty V0 table makes the first write undefined behaviour |
| V0DataLink.LinkExample | PWGLF/TableProducer/lambdakzerolabelbuilder.cxx:884-890 | two V0s with one V0Data row for V0 1: undefined as written, [−1, 0] intended |
| LabelBuilder.AcceptedIffAllCuts | PWGLF/TableProducer/lambdakzerolabelbuilder.cxx:445-536 | accepted iff every cut passes; the crossed-rows count plays no part in this variant |
| LabelBuilder.ItsAfterBound | PWGLF/TableProducer/lambdakzerolabelbuilder.cxx:538-543 | the ITS entries grow by one exactly for an accepted candidate with track QA on and fewer than ten clusters |
| LabelBuilder.ItsAfterBatchCounts | PWGLF/TableProducer/lambdakzerolabelbuilder.cxx:538-543 | with track QA on, bin b of an ITS array grows by the number of accepted candidates whose daughter has b clusters; with QA off the array is unchanged |
| LabelBuilder.L3CurrentAsWritten | PWGLF/TableProducer/lambdakzerolabelbuilder.cxx:398-400 | as written: a current is set iff abs(bz) > 1e-5, and the field read back from it is 25 / bz |
| LabelBuilder.L3CurrentAsWrittenReadsBackOnlyAtFive | PWGLF/TableProducer/lambdakzerolabelbuilder.cxx:398-400 | as written, the override field reads back as bz iff bz = 5 or bz = −5 |
| LabelBuilder.L3CurrentFor | PWGLF/TableProducer/lambdakzerolabelbuilder.cxx:395-401 | a current is set iff abs(bz) > 1e-5, and the field read back from it is bz |
| LabelBuilder.L3CurrentAsWrittenCounterexample | PWGLF/TableProducer/lambdakzerolabelbuilder.cxx:399-400 | for bz = 2 the current as written is 75000 A, read back as 12.5 kG; only abs(bz) = 5 reads back right |
| LabelBuilder.SliceOfSpec | PWGLF/TableProducer/lambdakzerolabelbuilder.cxx:612-613 | the slice of a collision holds exactly the V0s with that collision id |
| LabelBuilder.InterestingSpec | PWGLF/TableProducer/lambdakzerolabelbuilder.cxx:169 | the tag filter keeps exactly the V0s tagged interesting |
| LabelBuilder.CollisionsStep | PWGLF/TableProducer/lambdakzerolabelbuilder.cxx:607-616 | one more collision appends exactly its slice's accepted rows |
| LabelBuilder.EmittedRowsAreAccepted | PWGLF/TableProducer/lambdakzerolabelbuilder.cxx:548-603 | the rows emitted equal the radius-stage count in number, and each comes from an accepted V0 of the same collision |
| LabelBuilder.RowsBelongToProcessedCollisions | PWGLF/TableProducer/lambdakzerolabelbuilder.cxx:605-630 | every emitted row belongs to one of the processed collisions |
| LabelBuilder.StatsAfterCounts | PWGLF/TableProducer/lambdakzerolabelbuilder.cxx:553-559 | after a batch each stage counter has grown by the number of V0s reaching that stage |
| LabelBuilder.PrefixStep | PWGLF/TableProducer/lambdakzerolabelbuilder.cxx:553-599 | one more V0 extends the rows, ids, exceptions and counters by exactly its own contribution |
| LabelBuilder.Builder.constructor | PWGLF/TableProducer/lambdakzerolabelbuilder.cxx:174-202 | a fresh builder satisfies the invariant with empty tables |
| LabelBuilder.Builder.ResetHistos | PWGLF/TableProducer/lambdakzerolabelbuilder.cxx:215-225 | the stage, exception and event counters and both ITS arrays are zero |
| LabelBuilder.Builder.FillHistos | PWGLF/TableProducer/lambdakzerolabelbuilder.cxx:227-240 | the counters go into their histograms; the ITS arrays only with track QA on |
| LabelBuilder.Builder.FillCriteria | PWGLF/TableProducer/lambdakzerolabelbuilder.cxx:229-232 | the event, exception and criteria histograms gain the counters |
| LabelBuilder.Builder.FillIts | PWGLF/TableProducer/lambdakzerolabelbuilder.cxx:233-238 | both ITS histograms gain the arrays bin by bin |
| LabelBuilder.Builder.Init | PWGLF/TableProducer/lambdakzerolabelbuilder.cxx:244-386 | startup succeeds iff exactly one of the two process flags is on; the stage, exception and event counters and both ITS cluster arrays are zero; the negotiated configuration is taken |
| LabelBuilder.Builder.Configure | PWGLF/TableProducer/lambdakzerolabelbuilder.cxx:269-384 | the flag check, the negotiation and the material correction |
| LabelBuilder.Builder.InitCcdb | PWGLF/TableProducer/lambdakzerolabelbuilder.cxx:388-435 | nothing for the cached run; an input > −990 overrides the field and stores the current as written, 30000 / (bz / 5), when abs(bz) > 1e-5; otherwise the field comes from the GRP object or the rounded magnet current |
| LabelBuilder.Builder.BuildV0Candidate | PWGLF/TableProducer/lambdakzerolabelbuilder.cxx:437-545 | bumps exactly the stages reached, returns true iff accepted, counts the exception, fills the ITS arrays only for an accepted candidate with QA on |
| LabelBuilder.Builder.StagesBeforeFit | PWGLF/TableProducer/lambdakzerolabelbuilder.cxx:445-478 | the all, refit and DCA-to-PV stages: returns true iff all three pass |
| LabelBuilder.Builder.TrackQa | PWGLF/TableProducer/lambdakzerolabelbuilder.cxx:538-543 | an accepted candidate adds its cluster counts when they are below ten |
| LabelBuilder.Builder.FitTail | PWGLF/TableProducer/lambdakzerolabelbuilder.cxx:486-536 | the fit and topological stages bump what the fit outcome determines |
| LabelBuilder.Builder.BuildAndEmit | PWGLF/TableProducer/lambdakzerolabelbuilder.cxx:555-598 | one V0: its bumps, its exception, its row and covariance row iff accepted, and its daughters' ITS entries by `ItsAfter` |
| LabelBuilder.Builder.BuildAll | PWGLF/TableProducer/lambdakzerolabelbuilder.cxx:553-599 | the batch loop: per-stage counts, exceptions, exactly the accepted rows, and both ITS arrays as `ItsAfterBatch` of the old ones |
| LabelBuilder.Builder.BuildStrangenessTables | PWGLF/TableProducer/lambdakzerolabelbuilder.cxx:548-603 | accepted rows appended; the criteria histograms gain the counters and the batch's stage counts; with track QA on each ITS histogram bin gains the batch's ITS array bin, with it off it is unchanged; counters and both ITS arrays are then zero |
| LabelBuilder.Builder.Process | PWGLF/TableProducer/lambdakzerolabelbuilder.cxx:605-630 | the collision loop appends, collision by collision, the accepted rows of the interesting V0s in its slice, and caches the last collision's run; it fails only without field information |
| LabelBuilder.Builder.ProcessCollision | PWGLF/TableProducer/lambdakzerolabelbuilder.cxx:607-616 | one collision: run check, then the slice's rows and covariance rows, the histogram gains of `BuildStrangenessTables` for the slice, and zeroed counters and ITS arrays; without field information no row is appended |
| LabelBuilder.Builder.ProcessPrefixStep | PWGLF/TableProducer/lambdakzerolabelbuilder.cxx:607-616 | one turn of the collision loop extends the appended rows from the first j collisions to the first j + 1 and caches that collision's run |
| LabelBuilder.SliceV0s | PWGLF/TableProducer/lambdakzerolabelbuilder.cxx:612-613 | the slicing loop yields exactly the slice |
| Preselector.SetFlags | PWGLF/TableProducer/lambdakzerolabelbuilder.cxx:710-733 | flags are only ever set, never cleared; interesting iff some hypothesis was set |
| Preselector.CheckTrackQualityAsWritten | PWGLF/TableProducer/lambdakzerolabelbuilder.cxx:666-684 | as written: interesting iff some species passes its quality test while the flag guarding that test is set, the anti-hypertriton test being guarded by the hypertriton flag |
| Preselector.CheckTrackQuality | PWGLF/TableProducer/lambdakzerolabelbuilder.cxx:666-684 | interesting iff some flagged hypothesis has both daughters (or either, for baryons with onlyBaryons) above the crossed-rows minimum |
| Preselector.QualityAgreesWhenHypertritonFlagsMatch | PWGLF/TableProducer/lambdakzerolabelbuilder.cxx:680-683 | the code as written and the corrected check agree whenever the two hypertriton flags are equal |
| Preselector.QualityAntiHypertritonCounterexample | PWGLF/TableProducer/lambdakzerolabelbuilder.cxx:682 | an anti-hypertriton candidate with a good negative daughter is dropped as written |
| Preselector.QualityMonotone | PWGLF/TableProducer/lambdakzerolabelbuilder.cxx:666-684 | more hypotheses never make the quality check fail |
| Preselector.QualityAllHyps | PWGLF/TableProducer/lambdakzerolabelbuilder.cxx:666-684 | with all hypotheses: both daughters good, or one when onlyBaryons |
| Preselector.CheckPdg | PWGLF/TableProducer/lambdakzerolabelbuilder.cxx:688-734 | a hypothesis is set iff the mother's PDG code is that species' code and its generation switch is on |
| Preselector.PdgMarksAtMostOneSpecies | PWGLF/TableProducer/lambdakzerolabelbuilder.cxx:710-733 | the PDG check marks at most one species |
| Preselector.DedxConditionsPerSpecies | PWGLF/TableProducer/lambdakzerolabelbuilder.cxx:743-778 | a species' dE/dx condition holds iff its switch is on and both daughters' n-sigma lie strictly inside the window |
| Preselector.CheckDedx | PWGLF/TableProducer/lambdakzerolabelbuilder.cxx:737-779 | the dE/dx check sets exactly the switched-on, compatible species and never clears a flag |
| Preselector.DedxRespectsSwitches | PWGLF/TableProducer/lambdakzerolabelbuilder.cxx:743-778 | a species whose switch is off is never set |
| Preselector.Preselect | PWGLF/TableProducer/lambdakzerolabelbuilder.cxx:782-866 | one tag row per V0 in order, built by the chosen mode with `checkTrackQuality` as written |
| Preselector.McAssociatedSelectsTrueSpecies | PWGLF/TableProducer/lambdakzerolabelbuilder.cxx:794-813 | in MC-associated mode an interesting V0 has a common mother of a generated species, and every flag set names that mother's species |
| Preselector.CombinedModeIsConjunction | PWGLF/TableProducer/lambdakzerolabelbuilder.cxx:838-866 | the combined mode is interesting iff the dE/dx mode is and the PDG check is |
| Preselector.DedxModeWitness | PWGLF/TableProducer/lambdakzerolabelbuilder.cxx:816-835 | an interesting V0 in dE/dx mode has a switched-on species compatible in dE/dx whose flag guards, as written, a quality test the V0 passes |
| Preselector.AllHypsModesUseIntendedQuality | PWGLF/TableProducer/lambdakzerolabelbuilder.cxx:794-813 | the all-V0 and MC-associated modes test quality under every hypothesis, where the code as written and the corrected check agree |
| Preselector.DedxModeDropsAntiHypertriton | PWGLF/TableProducer/lambdakzerolabelbuilder.cxx:816-835 | in dE/dx mode with only the anti-hypertriton switch on, a compatible V0 with both daughters above the crossed-rows minimum gets the dE/dx flag but is not interesting |
| Preselector.HypertritonDedxIgnoresHelium | PWGLF/TableProducer/lambdakzerolabelbuilder.cxx:767-772 | with onlyBaryons, the hypertriton condition as written needs only the pion window on the negative daughter |
| Preselector.HypertritonDedxCounterexample | PWGLF/TableProducer/lambdakzerolabelbuilder.cxx:767-778 | with onlyBaryons, a V0 whose helium-3 candidate lies far outside the window is marked as (anti)hypertriton as written, and rejected by the intended test |
| Preselector.IntendedDedxTestsOnlyBaryons | PWGLF/TableProducer/lambdakzerolabelbuilder.cxx:755-778 | with onlyBaryons the intended test of a species with a baryon daughter is exactly that daughter's window; without it, the intended and written tests agree |
| StrangenessBuilder.EnabledExactlyOne | PWGLF/TableProducer/Strangeness/strangenessbuilder.cxx:360-367 | entry i is 1 iff the configured value is exactly 1; −1 and 0 give 0 |
| StrangenessBuilder.MarkedMapEntry | PWGLF/TableProducer/Strangeness/strangenessbuilder.cxx:399-405 | an entry is −1 if a cascade uses the V0, else its previous value if it existed, else −2 |
| StrangenessBuilder.MarkedFreshMap | PWGLF/TableProducer/Strangeness/strangenessbuilder.cxx:399-405 | on a fresh map: −1 iff used by a cascade, −2 iff not |
| StrangenessBuilder.StaleMarkSurvives | PWGLF/TableProducer/Strangeness/strangenessbuilder.cxx:401 | resize keeps an old −1 for a V0 that no cascade of this batch uses |
| StrangenessBuilder.HelperCallsFor | PWGLF/TableProducer/Strangeness/strangenessbuilder.cxx:408-418 | exactly one helper call per V0, in table order, with its collision, tracks and collinearity flag |
| StrangenessBuilder.HelperCallsConcat | PWGLF/TableProducer/Strangeness/strangenessbuilder.cxx:408-418 | building two tables one after the other issues the calls of their concatenation |
| StrangenessBuilder.Builder.constructor | PWGLF/TableProducer/Strangeness/strangenessbuilder.cxx:347 | a new task has no enabled tables, an empty map and no look-up table |
| StrangenessBuilder.Builder.Init | PWGLF/TableProducer/Strangeness/strangenessbuilder.cxx:356-373 | the run number is 0 and the enabled flags are computed from the configuration |
| StrangenessBuilder.Builder.InitCcdb | PWGLF/TableProducer/Strangeness/strangenessbuilder.cxx:375-395 | returns false iff there are no bunch crossings; reloads only on a new run; never assigns the cached run |
| StrangenessBuilder.Builder.MarkV0sUsedInCascades | PWGLF/TableProducer/Strangeness/strangenessbuilder.cxx:399-405 | the map is resized to the V0 count and every cascade's V0 is marked −1 |
| StrangenessBuilder.Builder.BuildV0s | PWGLF/TableProducer/Strangeness/strangenessbuilder.cxx:408-418 | the V0 loop issues exactly those helper calls |
| StrangenessBuilder.Builder.DataProcess | PWGLF/TableProducer/Strangeness/strangenessbuilder.cxx:427-437 | nothing without bunch crossings; the look-up table is reloaded with the bunch crossing's timestamp only on a new run; V0s built only when the V0 core table is enabled; the cascade branch changes nothing |
| StraRecoStudy.SortIndices | PWGLF/Tasks/QC/straRecoStudy.cxx:93-101 | a permutation of 0..n−1 with non-increasing values, equal values in ascending index order |
| StraRecoStudy.OffsetIsRowsBelow | PWGLF/Tasks/QC/straRecoStudy.cxx:190 | the Y offset for n reconstructions is the number of rows used by 1..n−1 reconstructions |
| StraRecoStudy.OffsetsMatchBinLabels | PWGLF/Tasks/QC/straRecoStudy.cxx:128-137 | offsets 0, 1, 3, 6 for 1..4 reconstructions, matching the bin labels |
| StraRecoStudy.BlocksDisjoint | PWGLF/Tasks/QC/straRecoStudy.cxx:190-200 | rows of different multiplicities never share a bin |
| StraRecoStudy.CountsWithinSlice | PWGLF/Tasks/QC/straRecoStudy.cxx:171-183 | contributors with a detector ≤ contributors ≤ slice size ≤ tracks |
| StraRecoStudy.CountIgnoresOtherCollisions | PWGLF/Tasks/QC/straRecoStudy.cxx:171 | tracks of other collisions change no count |
| StraRecoStudy.CountTrack | PWGLF/Tasks/QC/straRecoStudy.cxx:172-182 | one track updates only its collision's aggregate, to the counts over the tracks seen so far |
| StraRecoStudy.Aggregate | PWGLF/Tasks/QC/straRecoStudy.cxx:160-186 | the per-collision aggregates equal the counts over each slice, with the contributor numbers alongside |
| StraRecoStudy.StatsBoundedBySlice | PWGLF/Tasks/QC/straRecoStudy.cxx:170-183 | each detector count is at most the slice size |
| StraRecoStudy.CountXi | PWGLF/Tasks/QC/straRecoStudy.cxx:153-158 | the Xi counter is the number of Xi− within abs(eta) < 0.8 |
| StraRecoStudy.RankedFills | PWGLF/Tasks/QC/straRecoStudy.cxx:191-212 | rank r fills at offset + r and index bin 7r with the r-th sorted collision's numbers; the Xi histograms get the same fills iff there is a Xi |
| StraRecoStudy.ProcessMcCollision | PWGLF/Tasks/QC/straRecoStudy.cxx:151-214 | one `hNTimesCollRecoed` fill with the number of reconstructions, the same in `hNTimesCollWithXiRecoed` iff there is a Xi, one `hCyyTest` fill per collision, the ranked fills following the collisions sorted by contributors (descending and stable), and a McCollsExtra row holding the number of reconstructions |
| StraRecoStudy.EvSelReached | PWGLF/Tasks/QC/straRecoStudy.cxx:376-384 | between one and three event-selection steps, each one further iff the corresponding cut passes |
| StraRecoStudy.V0DaughterQuality | PWGLF/Tasks/QC/straRecoStudy.cxx:409-412 | both daughters have enough ITS clusters and enough crossed rows |
| StraRecoStudy.V0MassFill | PWGLF/Tasks/QC/straRecoStudy.cxx:385-445 | a mass is filled iff the V0 is labelled, within abs(y) ≤ 0.5, passes quality and the three strict cuts, and is a K0S, Lambda or anti-Lambda, into that species' histogram |
| StraRecoStudy.V0MassFillsAreSelected | PWGLF/Tasks/QC/straRecoStudy.cxx:385-446 | every filled mass comes from a selected V0, at most one per V0 |
| StraRecoStudy.RadiusCutIsStrict | PWGLF/Tasks/QC/straRecoStudy.cxx:431 | a V0 exactly at the radius threshold is not filled |
| StraRecoStudy.CascadeQualityAsWrittenCounterexample | PWGLF/Tasks/QC/straRecoStudy.cxx:499-502 | as written, with the default 70 crossed rows, no cascade passes |
| StraRecoStudy.CascadeQuality | PWGLF/Tasks/QC/straRecoStudy.cxx:499-502 | all three daughters have enough ITS clusters and enough crossed rows |
| StraRecoStudy.CascadeMassFill | PWGLF/Tasks/QC/straRecoStudy.cxx:464-545 | a mass is filled iff the cascade passes every cut as written (the bachelor's ITS count against both minima) and is a Xi± or Omega±, into that species' histogram |
| StraRecoStudy.DefaultConfigFillsNoCascade | PWGLF/Tasks/QC/straRecoStudy.cxx:499-502 | with the default minimum of 70 crossed rows and bachelors of at most 7 ITS clusters, no cascade mass is filled |
| StraRecoStudy.FirstWithoutMc | PWGLF/Tasks/QC/straRecoStudy.cxx:461-463 | the loop stops at the first cascade without an MC particle (on the prefiltered table there is none) |
| StraRecoStudy.CascadeLoopStopsAtFirstWithoutMc | PWGLF/Tasks/QC/straRecoStudy.cxx:462-463 | a selectable Xi behind an unlabelled cascade is never filled; the prefilter on `mcParticleId > -1` keeps such cascades out of the deployed table |
| StraRecoStudy.LabelledTableIsScannedWhole | PWGLF/Tasks/QC/straRecoStudy.cxx:268-269 | on a table where every cascade has an MC particle, as the cascade prefilter guarantees, the loop scans every cascade |
| StraRecoStudy.AddCounts | PWGLF/Tasks/QC/straRecoStudy.cxx:261-265 | bin b of the event-selection histogram gains counter b |
| StraRecoStudy.AddCountsKeepsOrder | PWGLF/Tasks/QC/straRecoStudy.cxx:261-265 | adding non-increasing counters keeps the histogram non-increasing |
| StraRecoStudy.Study.constructor | PWGLF/Tasks/QC/straRecoStudy.cxx:367 | the counters start at zero |
| StraRecoStudy.Study.ResetCounters | PWGLF/Tasks/QC/straRecoStudy.cxx:255-259 | every counter is zero |
| StraRecoStudy.Study.FillHistos | PWGLF/Tasks/QC/straRecoStudy.cxx:261-265 | the histogram gains the counters |
| StraRecoStudy.Study.FillV0Masses | PWGLF/Tasks/QC/straRecoStudy.cxx:385-446 | the V0 loop fills exactly the selected masses, in order |
| StraRecoStudy.Study.ProcessV0 | PWGLF/Tasks/QC/straRecoStudy.cxx:374-449 | a rejected event keeps its step counts and returns; an accepted one fills, moves the counters into the histogram and resets them; counters stay non-increasing |
| StraRecoStudy.Study.FillCascadeMasses | PWGLF/Tasks/QC/straRecoStudy.cxx:461-546 | the cascade loop fills the masses selected by the cuts as written, up to the first unlabelled cascade |
| StraRecoStudy.Study.ProcessCascade | PWGLF/Tasks/QC/straRecoStudy.cxx:452-547 | the same event cuts without counters, then the cascade loop with the cuts as written |
| OmegaExample.TopologyPasses | PWGLF/Tasks/Strangeness/omegaExample.cxx:141-150 | accepted iff both cosPA ≥ their minimum, abs(mΛ − m) ≤ window, both radii ≥ their minimum |
| OmegaExample.PidPasses | PWGLF/Tasks/Strangeness/omegaExample.cxx:158-175 | sign < 0: proton on the positive and pion on the negative daughter; otherwise swapped; kaon on the bachelor always |
| OmegaExample.HistogramFor | PWGLF/Tasks/Strangeness/omegaExample.cxx:177-181 | OmegaMinus iff sign < 0, otherwise OmegaPlus |
| OmegaExample.EachSelectedFilledOnce | PWGLF/Tasks/Strangeness/omegaExample.cxx:139-182 | the two histograms together hold one point per accepted cascade |
| OmegaExample.PointsComeFromSelectedOfSign | PWGLF/Tasks/Strangeness/omegaExample.cxx:139-182 | every point comes from an accepted cascade of the histogram's sign |
| OmegaExample.ThresholdsAreInclusive | PWGLF/Tasks/Strangeness/omegaExample.cxx:141-150 | a cascade exactly on every threshold is accepted |
| OmegaExample.OmegaTask.constructor | PWGLF/Tasks/Strangeness/omegaExample.cxx:78-90 | the cached run is −1 and every histogram is empty |
| OmegaExample.OmegaTask.InitZorro | PWGLF/Tasks/Strangeness/omegaExample.cxx:94-104 | re-initialises only on a run change, and then caches the run |
| OmegaExample.OmegaTask.FillCascades | PWGLF/Tasks/Strangeness/omegaExample.cxx:139-182 | the cascade loop fills exactly the accepted points into the histogram of their sign |
| OmegaExample.OmegaTask.Process | PWGLF/Tasks/Strangeness/omegaExample.cxx:120-183 | with a mask the run number becomes the event's and the trigger configuration is loaded once more exactly when the run changed (nothing changes without a mask); with a mask and an unselected event nothing is filled; otherwise the vertex position and every selected cascade's mass are appended to their histograms |
| GroupingCustom.BucketSpec | PWGLF/Tasks/QC/groupingBenchmarkCustom.cxx:71-73 | a bucket holds exactly the indices of the V0s of its collision, in increasing order |
| GroupingCustom.EachRowInOneBucket | PWGLF/Tasks/QC/groupingBenchmarkCustom.cxx:69-73 | each V0 index lies in the bucket of its collision and in no other |
| GroupingCustom.BucketSizesSum | PWGLF/Tasks/QC/groupingBenchmarkCustom.cxx:69-77 | the bucket sizes add up to the number of V0s |
| GroupingCustom.GroupByCollision | PWGLF/Tasks/QC/groupingBenchmarkCustom.cxx:69-73 | one bucket per collision, each equal to its specification |
| GroupingCustom.Benchmark.constructor | PWGLF/Tasks/QC/groupingBenchmarkCustom.cxx:48-56 | the data-frame counter starts at 0 with empty histograms |
| GroupingCustom.Benchmark.FillV0sPerEvent | PWGLF/Tasks/QC/groupingBenchmarkCustom.cxx:75-77 | one entry per collision: its bucket size |
| GroupingCustom.Benchmark.Process | PWGLF/Tasks/QC/groupingBenchmarkCustom.cxx:58-88 | an empty data frame changes nothing; otherwise bucket sizes and data-frame sizes are filled and the counter grows by one |
| GroupingPresliceUnsorted.Step | PWGLF/Tasks/QC/groupingBenchmarkPresliceUnsorted.cxx:64-95 | atDF grows by one; atFilledDF grows iff atDF > 0 and the frame is empty; the kept sizes change only for a frame with collisions |
| GroupingPresliceUnsorted.StepKeepsCounters | PWGLF/Tasks/QC/groupingBenchmarkPresliceUnsorted.cxx:84-94 | atFilledDF stays below atDF once a frame is seen, so atFilledDF ≤ atDF |
| GroupingPresliceUnsorted.RunCounts | PWGLF/Tasks/QC/groupingBenchmarkPresliceUnsorted.cxx:58-94 | after any frames atDF is their number and atFilledDF the number of empty frames after the first |
| GroupingPresliceUnsorted.RepeatedReport | PWGLF/Tasks/QC/groupingBenchmarkPresliceUnsorted.cxx:78-93 | two empty frames after a filled one both report the filled frame's sizes |
| GroupingPresliceUnsorted.Benchmark.constructor | PWGLF/Tasks/QC/groupingBenchmarkPresliceUnsorted.cxx:58-62 | all counters start at zero |
| GroupingPresliceUnsorted.Benchmark.Process | PWGLF/Tasks/QC/groupingBenchmarkPresliceUnsorted.cxx:64-95 | the fields move as one step of the state machine, and the histograms are filled exactly when a frame is reported |

## Left out

- The DCA fitter, the track propagator and the material corrections (TGeo, look-up table) are an external numerical library. The fit is an oracle outcome: it throws, or it returns a candidate count, vertex, chi2 and momenta.
- The pointing angle, `sqrtSumOfSquares` and `sqrt` are floating-point geometry and stay uninterpreted. Every float and double is an exact real, so rounding and precision are not modelled.
- The covariance packing (`calcPCACovMatrix`, global track covariances, momentum sums) is float data from the fitter. A covariance row is modelled by the V0 index it belongs to.
- Conditions database access, GRP objects and look-up-table loading become parameters: the nominal field and the magnet current, either of which may be absent. Histogram registries and logging are reduced to the sequences above. The framework's table declarations, `sliceBy` and preslices are reduced to sequence operations.
- `PWGLF/DataModel/LFStrangenessMLTables.h` is column and table declarations only.
- The converters `emPrimaryElectronsConverter.cxx` and `run2tracksExtraConverter.cxx` only copy columns.
- `trackPropagationTester.cxx` and `trackPropagationModule.h` are unfinished stubs that do not compile as shown.
- `groupingBenchmarkPreslice.cxx` and `groupingBenchmarkIterator.cxx` do only framework slicing and timing. The wall-clock timing of every task is dropped, so the time histograms are not modelled.
- MC mother traversal is given as lists of mother records, and the workflow description as device records (name, inputs, options).
- LambdaKzeroBuilder.Builder.InitCcdb: a missing GRP object is a fatal error in the code. In the model it returns false and the processing step builds nothing.
- LambdaKzeroBuilder.Builder.Process: the contract states the appended rows, the run cache and the histogram and counter effects of one batch. A missing GRP object is modelled as a false return, as for InitCcdb.
- LambdaKzeroBuilder.Builder.ProcessAssociated: it states the same as Process, over the tagged V0s. The framework's join of V0s with their tags is modelled as two sequences of equal length.
- LabelBuilder.Builder.Process: the contract states the appended rows and the last run cached. The histogram effects are stated per collision by ProcessCollision and are not summed over the collision loop. On failure it says that some collision had no field information, not which rows were appended before it.
- LabelBuilder.Builder.ProcessCollision: on failure (a fatal error in the code) the contract states only that no row is appended, not that the counters and histograms are untouched.
- StraRecoStudy.ProcessMcCollision: the histogram fills are kept as fill records, not as binned histograms. The covariance trace and `hCyyTest` use an uninterpreted square root.
- The framework filters `preFilterV0` and `preFilterCascade` (`straRecoStudy.cxx` lines 268-273) and `posZFilter` and `preFilterCascades` (`omegaExample.cxx` lines 108-115) are not modelled. The processing members take their inputs as already filtered. Because `preFilterCascade` demands `mcParticleId > -1`, the early `return` at `straRecoStudy.cxx` lines 462-463 is not reached in the deployed task.
- The per-particle QA histograms (track points, topological variables) of `straRecoStudy.cxx`, and its `processGeneratedReconstructible` and `processPureGenerated`, are plain histogram fills and are not modelled.
- OmegaExample.OmegaTask.Process: the trigger service's decision for the event is a parameter.

## Findings

| source | as written | input that shows it | evidently intended | confidence | as-written member | corrected member |
|---|---|---|---|---|---|---|
| PWGLF/TableProducer/lambdakzerobuilder.cxx:683-686 | `reserve(n)` followed by `lIndices[ii] = -1`: writes through `operator[]` on a vector of size 0 | any non-empty V0 table, e.g. two V0s and one V0Data row for V0 1 | a vector of size n filled with −1, giving [−1, 0] | not executed | V0DataLink.LinkAsWrittenUndefined | V0DataLink.BuildLink |
| PWGLF/TableProducer/lambdakzerolabelbuilder.cxx:682 | the anti-hypertriton line tests `lIsHypertriton` | onlyBaryons, anti-hypertriton flagged only, negative daughter with 80 crossed rows, positive with 10 | the anti-hypertriton flag is tested, and the candidate is kept | not executed | Preselector.QualityAntiHypertritonCounterexample | Preselector.CheckTrackQuality |
| PWGLF/TableProducer/lambdakzerolabelbuilder.cxx:399-400 | `setL3Current(30000 / (bz / 5))` | bz = 2 kG gives 75000 A, which reads back as 12.5 kG | a current of 30000 · bz / 5 that reads back as bz | not executed | LabelBuilder.L3CurrentAsWrittenCounterexample | LabelBuilder.L3CurrentFor |
| PWGLF/TableProducer/lambdakzerolabelbuilder.cxx:767-778 | with `dPreselectOnlyBaryons` the (anti)hypertriton lines waive the helium-3 window and keep the pion one, the reverse of the (anti)Lambda lines at 755-766 and of the option's description at line 659 ("only to baryon daughters") | onlyBaryons, both tracks with pion n-sigma 0 and helium-3 n-sigma 20: marked as hypertriton and as anti-hypertriton | the pion window is waived and the helium-3 window kept | not executed; the option's description supports the reading | Preselector.HypertritonDedxCounterexample | Preselector.IntendedDedxTestsOnlyBaryons |
| PWGLF/Tasks/QC/straRecoStudy.cxx:501 | the bachelor's ITS cluster count is compared with the crossed-rows minimum | default configuration (70 crossed rows): a bachelor with 7 ITS clusters and 120 crossed rows is rejected, as is every cascade | the bachelor's crossed rows are compared with the minimum | not executed | StraRecoStudy.CascadeQualityAsWrittenCounterexample | StraRecoStudy.CascadeQuality |
