# A Dafny model of the T' → t + φ selection code

This project models the algorithmic core of an analysis that searches for a vector-like top
partner decaying to a top quark and a scalar. The scalar is either a Higgs boson decaying to bb̄
("TH", semileptonic and all-hadronic) or a light scalar decaying to a photon pair ("TT", with
the singlet S → γγ). The project covers three families of code:

- **Per-event C++ functions.** These are the all-hadronic module `TTmodules.cc`, its
  predecessor `TTmodules_original.cc`, the semileptonic module `THmodules.cc` and the
  ttbar control-region module `ttbarmodules.cc`. They cover:
  - lepton vetoes;
  - first-qualifying-pair and leading-object pickers;
  - the two-jet top/Higgs assignment;
  - the top-tagging scale-factor lookup and its jet-by-jet category migration;
  - the photon scale-factor binning.

  Float inputs are `real`. `DeltaPhi` and `DeltaR` are uninterpreted function parameters.
  Random draws are explicit inputs.
- **The ParticleNet scale-factor handler classes.** These are `PNetXbbSFHandler`,
  `PNetSaaSFHandler` and `PNetTopSFHandler`. Each is a Dafny `class` with:
  - counter arrays that `CreateTag`/`UpdateTag` increment in place;
  - a random stream given as a function `nat -> real` plus a cursor into it.

  They implement the jet-by-jet tag-updating recipe ("method 2a") of the CMS b-tagging
  scale-factor methods. Modules `MigrationRecipe` and `TopSelection` capture that recipe.
- **The Python helpers and drivers:**
  - `JMEvariationStr`;
  - the set-name, `isData`, cross-section and region rules of `TTClass`/`THClass`;
  - the variation-code mapping and handler arguments of the selection scripts;
  - output-file naming;
  - the job planning of `perform_selection.py` and `THplotter.py`;
  - the parsing of finished result names;
  - the `hadd` stitching of `CombineCommonSets`;
  - the histogram-dictionary classification of the plotters.

How the modelling was done:
- **Uninitialised reads** become `Option`. An example is an `SF` left unset by a `switch` with
  no matching arm.
- **Out-of-range indexing** becomes a precondition (a bounds obligation). For example, every
  column a per-object cut reads must be at least as long as the column whose length bounds the
  loop.
- **Python exceptions** (`IndexError`, `KeyError`, `ValueError`, `AssertionError`) become the
  `Err` of a `Result`.
- **Divisions that may hit zero** are computed in module `Ieee`. It models IEEE-754 infinities,
  NaN and signed zero, but no rounding.
- **Loops in the source become methods with loop invariants.** Each is proved equal to a
  specification function, and the promised properties are proved about that function.

Modules by source file:

| module | source |
|---|---|
| `LeptonVetoes`, `JetPicking`, `LeadingPickers` | loop shapes shared by the C++ modules |
| `TTModules`, `THModules`, `OriginalTTModules`, `TtbarModules` | the four C++ modules, per-file differences |
| `TopScaleFactors`, `TopSelection`, `Eras`, `CSwitch` | code common to the C++ modules and handlers |
| `MigrationRecipe`, `XbbSF`, `SaaSF`, `TopSF` | the three handler classes |
| `AnalysisClass`, `JmeVariations` | `TTClass.py` / `THClass.py` |
| `SelectionScripts` | `THselection.py`, `TTselection.py`, `TTselectionData.py` |
| `JobNames`, `JobPlanning`, `PostProcessing`, `PlotInputs` | `perform_selection.py`, `THplotter.py`, `leading_jet_studies.py` |

## Model

| member | source | states |
|---|---|---|
| LeptonVetoes.VetoLoop | TTmodules.cc:19-29 | the veto scan is false when the object count is below one and otherwise true iff some scanned object passes the cuts (early return at the first) |
| TTModules.TightMuVeto | TTmodules.cc:19-29 | true iff nMuon ≥ 1 and some muon has tightId, pT > 15, relIso < 0.15, abs(η) < 3 |
| TTModules.TightElVeto | TTmodules.cc:31-41 | true iff nElectron ≥ 1 and some electron passes the tight isolated-electron cuts |
| TTModules.GoodMuVeto | TTmodules.cc:43-53 | true iff nMuon ≥ 1 and some muon passes the loose-ID, dxy and kinematic cuts |
| TTModules.GoodElVeto | TTmodules.cc:55-65 | true iff nElectron ≥ 1 and some electron passes the isolation, dxy and kinematic cuts |
| THModules.TightMuVeto | THmodules.cc:19-27 | the same exists-shape with the semileptonic thresholds (pT > 30, abs(η) < 2.4) |
| THModules.TightElVeto | THmodules.cc:29-37 | the same exists-shape with pT > 35, abs(η) < 2.5 |
| THModules.GoodMuVeto | THmodules.cc:39-47 | the same exists-shape with dxy < 0.02 |
| THModules.GoodElVeto | THmodules.cc:49-57 | the same exists-shape with dxy < 0.05 |
| THModules.TightMuonStricter | THmodules.cc:19-27 | a muon passing the semileptonic tight-muon cuts passes the all-hadronic ones (TTmodules.cc:19-29) |
| THModules.VetoesStricter | THmodules.cc:19-57 | for each of the four vetoes, a lepton passing the semileptonic cuts means some lepton passes the all-hadronic cuts (TTmodules.cc:19-65), so the semileptonic module keeps every event the all-hadronic one keeps |
| TopScaleFactors.PtCat | TTmodules.cc:97-105 | the pT bin is defined iff low ≤ pT < 1200, and pT lies inside the bin's edges |
| TopScaleFactors.PtCatMonotone | TTmodules.cc:101-104 | the pT bin is non-decreasing in pT |
| TopScaleFactors.TablesInRange | TTmodules.cc:84-92 | every top-tagging factor lies in [0.86, 1.54] |
| TopScaleFactors.GetSF | TTmodules.cc:106-122 | outside the bins the factor is 1.0; inside, jetCat 0 reads the loose table and 1 the tight one at [variation][bin] for the year's era (unknown years read 2018); other jetCats leave SF unset (None) |
| TopScaleFactors.GetSFDefined | TTmodules.cc:106-122 | for jetCat 0 or 1 the factor is defined and positive |
| Eras.EraOf | TTmodules.cc:109-112 | "2016APV", "2016", "2017" select their own tables and every other string selects 2018 |
| TTModules.GetSF | TTmodules.cc:77-125 | bins start at 350; factor 1.0 below 350 or from 1200; the first bin reads table column 0 and [600,1200) column 3 |
| THModules.GetSF | THmodules.cc:69-113 | bins start at 300; factor 1.0 outside [300,1200); loose table for jetCat 0, tight for 1 |
| TopSelection.GetOriginalTopCat | TTmodules.cc:288-291 | the category is 1 iff the score is strictly above the working point, else 0 |
| TopSelection.PromotionThreshold | TTmodules.cc:304-306 | for eff ∉ {0,1} the IEEE threshold (1−SF)/(1−1/eff) is finite and equals (SF−1)·eff/(1−eff) |
| TopSelection.GetNewTopCat | TTmodules.cc:293-314 | for SF < 1 the category changes iff it is 1 and rand < 1−SF, and then becomes 0; for SF ≥ 1 it changes iff it is 0 and rand is below the promotion threshold, and then becomes 1; {0,1} is kept |
| TopSelection.GetNewTopCatIgnoresInvert | TTmodules.cc:293-314 | the `invert` argument has no effect |
| TopSelection.UnitScaleFactorKeepsCategory | TTmodules.cc:293-314 | SF = 1 with a non-negative draw leaves the category unchanged |
| TopSelection.NoPromotionAtFullEfficiency | TTmodules.cc:303-310 | with eff = 1 the threshold is −∞ (SF > 1) or NaN (SF = 1), so nothing is promoted |
| TopSelection.NoPromotionAtZeroEfficiency | TTmodules.cc:303-310 | with eff = 0 the threshold is ±0 and a non-negative draw promotes nothing |
| TopSelection.BelowProbability | TTmodules.cc:297-307 | the probability that a uniform draw falls below t is t clamped to [0,1] |
| TopSelection.MigrationScalesEfficiency | TTmodules.cc:293-314 | after migration the tagged fraction is SF·eff, the recipe's purpose |
| TopSelection.PromotionFractionInUnit | TTmodules.cc:303-310 | when SF·eff ≤ 1 the promotion fraction lies in [0,1] |
| TopSelection.MigrationMonotoneInDraw | TTmodules.cc:293-314 | if a draw migrates the jet, every smaller draw migrates it the same way |
| TopSelection.OrderTops | TTmodules.cc:474-505 | the output is {-1,-1} when neither jet passes, the passing jet first when one does, and the leader first when both do |
| TopSelection.PickTop | TTmodules.cc:1446-1486 | a jet passes iff it is inside the mass window with score > WP (inverted: 0.2 < score < WP); output ordered by strictly larger score, ties putting idx1 first |
| TopSelection.PickTopCRv2 | THmodules.cc:281-318 | signal mode: inside the mass window with score > WP; inverted: 0.2 < score < WP and HbbvsQCD < 0.2; the output is a permutation of the pair or {-1,-1} |
| TopSelection.SignalAndControlLeadersDiffer | THmodules.cc:281-318 | a jet cannot lead both the signal-mode and the inverted-mode pick |
| TopSelection.MigratedTopCat | THmodules.cc:163-172 | the migrated category is in {0,1} and equals the original category outside the pT bins |
| TopSelection.PickTopWithSFs | THmodules.cc:143-217 | signal mode: a jet is a top iff its migrated category is 1; inverted: iff it is 0 and HbbvsQCD < 0.2; ordered by the raw score as in OrderTops |
| TopSelection.PickTopWithSFsOutsideBins | THmodules.cc:143-217 | outside the SF bins the migrated pick equals the pick on the original categories |
| TopSelection.IntAbs | THmodules.cc:321-334 | the absolute value of a PDG id |
| TopSelection.MatchToGen | THmodules.cc:321-334 | true iff some generated particle has abs(pdgId) = pdgID and DeltaR < 0.8 |
| TopSelection.PickTopGenMatch | THmodules.cc:336-352 | tIdx, hIdx ∈ {-1,0,1}; they are equal only when both are -1; a top-matched jet is never chosen as the Higgs |
| TTModules.PickTopWithSFs2 | TTmodules.cc:385-430 | with invertScore fixed to false the selection is dead code and the output is always {0,0} |
| TTModules.GetDiPhotonCat | TTmodules.cc:127-138 | the category counts how many of the first two tagger values are ≥ the working point |
| TTModules.EtaCat | TTmodules.cc:171-191 | the η bin is in 0..9 and lies between its edges |
| TTModules.EtaCatMonotone | TTmodules.cc:171-191 | the η bin is non-decreasing in η |
| TTModules.PhotonPtCat | TTmodules.cc:213-223 | the photon-pT bin is in 0..4 and lies between its edges |
| TTModules.PhotonPtCatMonotone | TTmodules.cc:213-223 | the photon-pT bin is non-decreasing in pT |
| TTModules.PhotonTable | TTmodules.cc:152-160 | each working-point table is a 10 × 5 grid |
| TTModules.PhotonLegSF | TTmodules.cc:237-258 | wpCat 0..3 falls through every arm and reads the tight table; any other wpCat leaves SF unset |
| CSwitch.FallThrough | TTmodules.cc:237-258 | a switch without breaks assigns the value of its last arm when an arm matches, and nothing otherwise |
| TTModules.GetPhotonSF | TTmodules.cc:140-286 | ichoice 1 or 2 returns that photon's factor, with the category cast to int by truncation; any other ichoice returns their product |
| TTModules.ProductSF | TTmodules.cc:281-285 | the product is defined iff both factors are |
| TTModules.PhotonSFDefinedForCategories | TTmodules.cc:140-286 | tagger values in [0,4) always give a defined factor |
| TTModules.PickDijets | TTmodules.cc:508-530 | j0 is the first jet with pT > 350 and abs(η) < 2.4; j1 is the first later such jet with abs(η0−η1) < 1.6 |
| JetPicking.FirstIndex | TTmodules.cc:512-517 | the first index satisfying the cut, or -1 when there is none |
| JetPicking.FirstPair | TTmodules.cc:508-530 | j1 set implies j0 set and j0 < j1 |
| JetPicking.PickFirstPair | TTmodules.cc:508-530 | the nested break-loop equals FirstPair |
| JetPicking.FirstPairCongruent | THmodules.cc:219-237 | pickers whose cuts agree on every index give the same pair |
| TTModules.PickDiphotons | TTmodules.cc:532-548 | the first two photons with pT > 25 |
| TTModules.RegionId | TTmodules.cc:550-601 | region 1 when both b-tags exceed 0.8, 0 when exactly one does, -1 when neither does |
| TTModules.PickDijetsV | TTmodules.cc:550-601 | the first pT/η-qualified pair, its kinematics and its b-tag region |
| TTModules.PickDijetsV3 | TTmodules.cc:603-625 | as PickDijets, with the extra cut b-tag > 0.8 |
| TTModules.AllTaggedPicksAgree | TTmodules.cc:603-625 | when every jet is b-tagged, PickDijetsV3 picks what PickDijets picks |
| LeadingPickers.PickDiphotonsLeading | TTmodules_original.cc:277-309 | ph1 is the first argmax of pT, ph2 the first argmax excluding ph1 |
| JetPicking.LeadIndex | TTmodules_original.cc:277-309 | the first index of the maximum above the floor among the allowed indices, or -1 |
| JetPicking.ScanLeading | TTmodules_original.cc:284-292 | the max-tracking loop returns LeadIndex and its value |
| LeadingPickers.DiphotonsLeadingShape | TTmodules_original.cc:277-309 | empty input gives {-1,-1}; one photon gives {0,-1}; the second index is set only after the first, names a different photon with pT not larger, and is set whenever there are two photons with non-negative pT |
| LeadingPickers.PickDiphotonsLeadingOrdered | TTmodules.cc:746-772 | {0,1} when there are at least two photons, else {-1,-1} |
| LeadingPickers.PickLeadingLepton | TTmodules_original.cc:686-708 | {-1,-5,-5,-1} without leptons; otherwise electron 0 unless muon 0 has strictly larger pT |
| LeadingPickers.LeadingFlavourIndices | TTmodules_original.cc:710-744 | both indices are −1 or in range; id1 is set only when id0 is, and then names a different jet with pT not larger |
| LeadingPickers.PickLeadingQJets | TTmodules_original.cc:710-744 | the kinematics of the two leading jets with flavour == choice; unfound slots keep their defaults |
| LeadingPickers.PickLeadingDiJets | TTmodules_original.cc:746-780 | the same with flavour ≠ choice |
| LeadingPickers.FlavourSplit | TTmodules_original.cc:710-780 | the QJets and DiJets index picks never share a jet |
| TTModules.PickLeadingDiPhotons | TTmodules.cc:1342-1368 | photon 0 and photon 1 kinematics in that order, with the defaults for missing photons |
| OriginalTTModules.PickLeadingDiPhotons | TTmodules_original.cc:846-868 | the same without the MVA ID columns |
| OriginalTTModules.LeadingDiPhotonsExtended | TTmodules.cc:1342-1368 | the newer output's first eight entries equal the older output |
| TTModules.PickLeadingDiPhotonsI | TTmodules.cc:1370-1380 | the cut-based IDs of photons 0 and 1, or -1 |
| TTModules.PickTagF | TTmodules.cc:1389-1416 | OrderTops on the pass flags score > cut, using float scores |
| TTModules.PickTagI | TTmodules.cc:1418-1444 | the same for integer scores |
| TTModules.PickTopSimple | TTmodules.cc:1488-1528 | PickTop without the mass window |
| TTModules.PickTopWithoutWindow | TTmodules.cc:1446-1528 | when every mass is inside the window, PickTop equals PickTop_Simple |
| TTModules.PickJetAnd2Gamma | TTmodules.cc:1604-1638 | the loop exits on its first iteration: {0,-1,-1} if jet 0 has pT > 350, abs(η) < 3, mass > 0, else {-1,-1,-1} |
| OriginalTTModules.PickJetAnd2Gamma | TTmodules_original.cc:985-1019 | the same with pT > 15 |
| THModules.PickDijets | THmodules.cc:219-237 | j0 is the first jet with pT > 350, abs(η) < 2.4, mass > 50; j1 is the first later one with abs(DeltaPhi) > π/2 |
| THModules.PickDijetsMeaning | THmodules.cc:219-237 | j0 passes the cut and no earlier jet does; j1 passes the cut and is back-to-back |
| OriginalTTModules.PickDijets | TTmodules_original.cc:229-249 | the same with pT > 15, abs(η) < 3, mass > 0 |
| OriginalTTModules.PickDijetsFirstTwo | TTmodules_original.cc:229-249 | the first qualifying jet and a first back-to-back partner are the pick |
| TtbarModules.ChooseLepton | ttbarmodules.cc:24-114 | muons only: id 2 iff some muon pT > 50; electrons only: id 1 iff some electron pT > 50; both present: the first pair whose strictly larger pT exceeds 50 decides, and the truncated pT stays 0 |
| TtbarModules.EqualPtDecidesNothing | ttbarmodules.cc:72-114 | equal electron and muon pT select neither |
| TtbarModules.DijetsV2 | ttbarmodules.cc:13-123 | Leptonidx ∈ {-1,1,2} and no lepton leaves every index −1; a returned jet pair meets the Δφ and b-tag pair condition, and no pair is returned after a lepton only when no pair meets it; C_Lepton_pt is ±1, and −1 whenever both kinds are present |
| TtbarModules.LeptonPtCutTruncates | ttbarmodules.cc:118-121 | a chosen muon with pT 50.5 still gets C_Lepton_pt = -1, because the int-truncated pT is 50 |
| TtbarModules.PickDijetsV2 | ttbarmodules.cc:13-123 | the flag-controlled nested loops equal DijetsV2 |
| TtbarModules.TwoDCut | ttbarmodules.cc:127-157 | {-1,-1} unless LeptonId is 1 or 2; otherwise Crel_pt = 1 iff jetPtRelv2 > 25 and the ΔΦ flag = 1 iff abs(DeltaPhi) > 0.4 |
| TtbarModules.GetFloatLeptonProperty | ttbarmodules.cc:212-226 | the electron property for id 1, the muon property for 2, and -1 otherwise |
| TtbarModules.LeptonPropertyOfChoice | ttbarmodules.cc:212-226 | for a single-flavour event it reads the pT of the chosen lepton |
| TtbarModules.FindMothersPdgId | ttbarmodules.cc:263-272 | out has the index list's length and out[i] = genpart_id[idx[i]] |
| XbbSF.XbbPtCat | ParticleNet_XbbSF.cc:103-115 | bins [400,600), [600,800) and > 800; pT = 800 exactly falls in no bin |
| XbbSF.WPCat | ParticleNet_XbbSF.cc:82-95 | 1 iff wps[0] < v < wps[1]; 2 iff v > wps[1]; else 0; a value equal to a working point is fail |
| XbbSF.GetSF | ParticleNet_XbbSF.cc:97-132 | 1.0 outside the bins; otherwise the missing breaks make every category read the tight table |
| XbbSF.Handler.constructor | ParticleNet_XbbSF.cc:68-75 | working points, efficiencies, year, variation and a fresh random stream; all counters zero; the handler's factor `sfOf` is `getSF` under its working points, year and variation |
| XbbSF.Handler.CreateTag | ParticleNet_XbbSF.cc:135-152 | returns WPCat and increments exactly that origTags slot |
| XbbSF.Handler.UpdateTag | ParticleNet_XbbSF.cc:154-213 | returns the recipe's new category with SF_L = SF_T; consumes two draws exactly when SF > 1, cat 0 and the first draw ≥ fT; increments exactly that newTags slot |
| XbbSF.Handler.CreateTags | ParticleNet_XbbSF.cc:221-248 | per entry equal to the scalar category; origTags grows by the per-category counts |
| XbbSF.Handler.UpdateJet | ParticleNet_XbbSF.cc:263-316 | one draw per jet; the corrected vector rule; newTags grows at the result only |
| XbbSF.Handler.UpdateTags | ParticleNet_XbbSF.cc:250-321 | output of length jetCats.size(); the first pt.size() entries updated by the corrected vector rule with one draw each and the rest 0; newTags grows by the per-category counts |
| XbbSF.VectorUpdateTagReachesThree | ParticleNet_XbbSF.cc:298-302 | with the 2016APV table at pT 700, the as-written vector update reaches category 3 |
| MigrationRecipe.HandlerUpdate | ParticleNet_XbbSF.cc:169-188 | with SF < 1, categories 1 and 2 drop to 0 when rn < 1−SF; with SF > 1, only 0 rises (to 2 below fT, else to 1 on a second draw below fL); SF = 1 is the identity; {0,1,2} is kept |
| MigrationRecipe.ScalarUpdate | ParticleNet_XbbSF.cc:164-208 | the general four-branch rule consumes two draws exactly when both SFs exceed 1, cat is 0 and the first draw is ≥ fT |
| MigrationRecipe.VectorUpdateAsWritten | ParticleNet_XbbSF.cc:294-311 | the vector rule as written keeps categories in 0..3 |
| MigrationRecipe.VectorUpdate | ParticleNet_XbbSF.cc:294-311 | the corrected vector rule keeps categories in 0..2 |
| MigrationRecipe.VectorUpdateCorrection | ParticleNet_XbbSF.cc:298-302 | the correction differs from the as-written rule only where that rule reaches 3, and gives 2 there |
| MigrationRecipe.VectorUpdateReachesThree | ParticleNet_XbbSF.cc:298-302 | cat 0, SF 1.206, effs 0.3, draw 0.01 gives 3 |
| MigrationRecipe.VectorMatchesScalarBelowOne | ParticleNet_XbbSF.cc:294-297 | below SF 1 the vector rule equals the scalar rule |
| MigrationRecipe.VectorUnitFactorIdentity | ParticleNet_XbbSF.cc:294-311 | SF = 1 leaves the category unchanged |
| MigrationRecipe.CountTotal | ParticleNet_XbbSF.cc:316 | the per-category counts add up to the number of jets |
| SaaSF.SaaTable | ParticleNet_SaaSF.cc:35-43 | every entry is 1.0 |
| SaaSF.WPCat | ParticleNet_SaaSF.cc:82-92 | 1 iff v > wp strictly, else 0 |
| SaaSF.GetSF | ParticleNet_SaaSF.cc:94-129 | constantly 1.0 |
| SaaSF.UnitUpdateKeepsCategory | ParticleNet_SaaSF.cc:164-203 | at SF = 1 no branch fires and the category is unchanged |
| SaaSF.UnitVectorUpdateKeepsCategory | ParticleNet_SaaSF.cc:286-306 | the vector rule is the identity at SF = 1 |
| SaaSF.Handler.constructor | ParticleNet_SaaSF.cc:68-75 | the handler's fields, a fresh stream, zero counters |
| SaaSF.Handler.CreateTag | ParticleNet_SaaSF.cc:132-145 | returns WPCat and increments that origTags slot |
| SaaSF.Handler.UpdateTag | ParticleNet_SaaSF.cc:147-208 | returns photonCat unchanged, consumes exactly one draw and increments newTags[photonCat]; photonCat must be 0 or 1 |
| SaaSF.Handler.CreateTags | ParticleNet_SaaSF.cc:216-239 | length preserved, per-entry WPCat, counts added |
| SaaSF.Handler.UpdateTags | ParticleNet_SaaSF.cc:241-313 | identity on the first pt.size() jets, one draw each, zero-filled remainder, counts added |
| TopSF.GetSF | ParticleNet_TopSF.cc:77-100 | 1.0 outside [300,1200); inside, case 0 falls through into case 1, so both categories read the tight table |
| TopSF.HandlerReadsTightForFailing | ParticleNet_TopSF.cc:87-98 | the handler's factor for jetCat 0 is the one the modules use for jetCat 1 |
| TopSF.GetNewCatAsWritten | ParticleNet_TopSF.cc:138-156 | defined exactly when a migration happens, and then equal to the modules' getNewTopCat |
| TopSF.GetNewCatUninitialised | ParticleNet_TopSF.cc:138-156 | SF 0.9, old category 0: no migration, so newCat is read uninitialised, while getNewTopCat returns 0 |
| TopSF.Handler.constructor | ParticleNet_TopSF.cc:61-68 | the handler's fields, a default stream, four zero counters |
| TopSF.Handler.UpdateTag | ParticleNet_TopSF.cc:105-136 | reads the categories at the two stored indices; consumes two draws; out has the two categories migrated by the corrected getNewTopCat, in {0,1}; each of the four counters grows at its own category |
| JmeVariations.VariationType | TTClass.py:654 | the text before the first '_' |
| JmeVariations.PtEntries | TTClass.py:653-662 | always exactly the JES, then JER entries |
| JmeVariations.MassEntries | TTClass.py:658-662 | equal to PtEntries for 'Top'; otherwise four entries JES, JER, JMS, JMR |
| JmeVariations.ListsOverBaseCalibs | TTClass.py:652-662 | the loop over the base calibrations produces exactly those entry lists |
| JmeVariations.JMEvariationStr | TTClass.py:652-665 | both outputs are '{' + the comma-joined entries + '}'; for 'Top' the two are equal |
| JmeVariations.BracedRoundTrip | TTClass.py:663-664 | splitting the brace contents on ',' gives back the entries: no trailing comma |
| JmeVariations.NoneIsNominal | TTClass.py:652-665 | variation 'None' yields all-nominal vectors |
| JmeVariations.JesVariation | TTClass.py:659-662 | a JES variation replaces exactly the JES entry |
| JmeVariations.EntryKept | TTClass.py:659-662 | a calibration not containing the variation type is kept |
| JmeVariations.ListedIsJoin | TTClass.py:663-664 | dropping the last comma of the accumulated string gives the comma join |
| AnalysisClass.SetName | TTClass.py:35-38 | field 0 of the basename for '.txt' inputs and field 1 otherwise; IndexError when there is none |
| AnalysisClass.SetNameOfList | TTClass.py:35-36 | a '.txt' list name yields its first '_' field |
| AnalysisClass.SetNameOfRootFile | TTClass.py:37-38 | a ROOT file name yields its second '_' field |
| AnalysisClass.DataSetIsData | TTClass.py:55-58 | any input containing 'Data' is data |
| AnalysisClass.LumiKey | TTClass.py:637 | 'lumi16' for APV years, 'lumi' + year otherwise |
| AnalysisClass.LumiKeyShared | TTClass.py:637 | 16APV shares 16's luminosity; other years map injectively |
| AnalysisClass.GetXsecScale | TTClass.py:636-641 | KeyError for a missing lumi or cross section; ValueError iff genEventSumw == 0; otherwise scale·genEventSumw = lumi·xsec |
| AnalysisClass.XsecScaleInverse | TTClass.py:641 | doubling genEventSumw halves the scale |
| AnalysisClass.ParseRegion | TTClass.py:592 | only 'SR' and 'CR' are accepted |
| AnalysisClass.STagTopTag | TTClass.py:583-617 | a result exactly for "SR" or "CR"; pass and fail are never both set; pass needs both scalar-tag values above the working point, fail exactly one; a selected event has both top scores above the top WP in SR and one in CR |
| AnalysisClass.SignalAndControlDisjoint | TTClass.py:583-617 | an event selected in SR is not selected in CR |
| AnalysisClass.ScoreAtWorkingPoint | TTClass.py:597-610 | a value equal to a working point falls in no region |
| AnalysisClass.STagTopTagCovers | TTClass.py:583-617 | away from the working points, an event with a passing top and scalar tag lands in SR or CR |
| AnalysisClass.TtbarCRWorkingPoint | THClass.py:393-398 | 0.632/0.889 when '16' is in the year, 0.554/0.863 for '17', 0.685/0.92 otherwise |
| AnalysisClass.LooseBelowTight | THClass.py:393-398 | the loose working point is below the tight one |
| AnalysisClass.TtbarCRYears | THClass.py:393-398 | '16APV' shares 16's point; '2017' is not '17' and gets the 2018 point |
| AnalysisClass.TtbarCR | THClass.py:402-407 | fail iff the Higgs fails and the top score < WP; pass iff the score > WP; disjoint |
| AnalysisClass.HiggsFails | THClass.py:402 | background: Higgs score < 0.8; signal: the new tag category is 0 |
| AnalysisClass.HiggsFailsForms | THClass.py:402 | for an unmigrated signal jet (category from the handler's getWPcat with working points 0.8 and 0.98), the signal fail cut agrees with the background's Higgs < 0.8 iff the score is neither 0.8 nor 0.98; at those two scores only the signal form fails the jet |
| SelectionScripts.SignalNames | THselection.py:82-83 | 'TprimeB-…' names are TH signal and 'StoAA-…' names are TT signal |
| SelectionScripts.VariationCodes | THselection.py:85-99 | PNetTop_up/down set the top code 1/2; PNet<tagger>_up/down set the tagger code 1/2; everything else is (0,0); at most one nonzero |
| SelectionScripts.HiggsCodes | THselection.py:82-99 | codes exist iff the set is a T' signal |
| SelectionScripts.SaaCodes | TTselection.py:83-100 | codes exist iff the set is an S → γγ signal |
| SelectionScripts.SaaDataCodes | TTselectionData.py:105-124 | codes default to (0,0) before the signal branch, so they are always defined |
| SelectionScripts.NamedVariations | THselection.py:85-99 | the concrete mapping of the named variations |
| SelectionScripts.SaaDriversAgree | TTselectionData.py:105-124 | the data driver's defaulted codes agree with the MC driver's |
| SelectionScripts.XbbHandlerArgs | THselection.py:48-61 | the handler is built with {0.8,0.98}, the efficiencies, '20'+era and column 'Higgs_'+tagger |
| SelectionScripts.XbbArgsIgnoreWorkingPoints | THselection.py:48-61 | wp_loose and wp_tight have no effect |
| SelectionScripts.HandlerYearSelectsEra | THselection.py:57 | '20' + era selects the intended table for each era |
| SelectionScripts.XbbArgsConstructible | THselection.py:48-61 | the arguments meet the handler constructor's preconditions |
| SelectionScripts.SaaHandlerArgs | TTselection.py:45-62 | the handler is built with working point 0 and column 'Diphoton_'+tagger |
| SelectionScripts.SaaArgsIgnoreWorkingPoint | TTselection.py:45-62 | the passed wp has no effect |
| SelectionScripts.TopcutTag | THselection.py:103 | '' or '_htag' + topcut with '.' replaced by 'p' |
| SelectionScripts.VariationTag | THselection.py:105 | '' for 'None', else '_' + variation |
| SelectionScripts.OutputNameSeparatesVariations | THselection.py:102-105 | different variations give different output names |
| SelectionScripts.SaaEfficiencySelection | TTselection.py:21-24 | PASS: both values > wp; FAIL: one strictly above and one strictly below |
| SelectionScripts.SaaEfficiencyDisjoint | TTselection.py:21-24 | PASS and FAIL are disjoint, and a value at wp is in neither |
| SelectionScripts.PhotonCategories | TTselectionData.py:24-47 | PASS both ≥ w, FAIL exactly one ≥ w, FAILFAIL both < w |
| SelectionScripts.PhotonCategoriesPartition | TTselectionData.py:24-47 | exactly one of the three holds, matching getDiPhotonCat's 2/1/0 |
| SelectionScripts.DataEfficiencySelections | TTselectionData.py:21-47 | each photon predicate is conjoined with its region's jet condition |
| SelectionScripts.DataEfficiencyFractions | TTselectionData.py:21-47 | within a region the three photon categories partition the region total; SR and CR jet conditions are disjoint |
| JobNames.Stem | perform_selection.py:13 | the basename before its first '.', without '.' or '/' |
| JobNames.ProcYearFromTxt | perform_selection.py:12-14 | fields 0 and 1 of the stem, IndexError when there are fewer |
| JobNames.ProcYearFromROOT | perform_selection.py:15-17 | fields 1 and 2 of the stem, IndexError when there are fewer |
| JobNames.TxtRoundTrip | perform_selection.py:12-14 | a snapshot list name yields back its set name and era |
| JobNames.RootRoundTrip | THplotter.py:15-17 | a ROOT name yields back its process and year |
| JobNames.SkipRuleSimplifies | perform_selection.py:122-124 | the skip rule amounts to 'HT200' or 'HT400' in the set name |
| JobNames.TrigEffKey | perform_selection.py:127-132 | an era containing 'APV' maps to '16'; other eras must be a key of teff (KeyError otherwise) |
| JobNames.PlotterTrigEffKey | THplotter.py:99-110 | the plotter uses the era itself as the key |
| JobNames.TrigEffKeysCompared | THplotter.py:99-110 | '16APV' is found by the selection driver and raises KeyError in the plotter |
| JobNames.CombinationFrom | perform_selection.py:143-148 | three fields give 'None', five or more join fields 3 and 4; four raise IndexError |
| JobNames.ResultFields | perform_selection.py:139-140 | IndexError when the name has no '/' before its first '.' |
| JobNames.ParseResultNameAsWritten | perform_selection.py:137-148 | the parse as written reads set, era and variation from fields 1, 2, 3-4 |
| JobNames.ParseResultName | perform_selection.py:137-148 | the corrected parse reads them one field later, past the 'HT…' field |
| JobNames.OutputFields | THselection.py:102-105 | an output name splits into THselection, HT…, set, era and the variation's parts |
| JobNames.ParseResultNameRoundTrip | THselection.py:102-105 | the corrected parse of an output name gives back its job key |
| JobNames.ParseResultNameAsWrittenShifts | perform_selection.py:137-148 | the as-written parse of an output name gives the key 'HT… set era_<first part>', or IndexError |
| JobNames.ParseResultNameAsWrittenMisreads | perform_selection.py:137-148 | 'TprimeB-1800 16 JES_up' is read back as 'HT750 TprimeB-1800 16_JES' |
| JobPlanning.JmeVariation | perform_selection.py:130-132 | the i-th JME variation is kind[i/2] + '_' + shift[i%2] |
| JobPlanning.JmeVariationInjective | perform_selection.py:130-132 | the eight variations are distinct |
| JobPlanning.SetVariations | perform_selection.py:125-132 | 9 entries ('None' first) for MC that is neither Data nor QCD, else just 'None' |
| JobPlanning.SetVariationsDistinct | perform_selection.py:125-132 | the variations listed for a set are distinct |
| JobPlanning.SetVariationsOrder | perform_selection.py:130-132 | the order is JES, JER, JMS, JMR, each up then down |
| JobPlanning.JobsFor | perform_selection.py:125-132 | one job per listed variation, with the set, era, trigger key and topcut |
| JobPlanning.FileJobs | perform_selection.py:113-132 | Err iff the name does not parse or an unskipped set has no trigger efficiency; skipped sets give none; otherwise one valid job per variation |
| JobPlanning.FileJobKeys | perform_selection.py:125-132 | the jobs of one file have distinct keys |
| JobPlanning.InsertKeys | perform_selection.py:125-132 | inserting jobs keeps old keys and adds each job's key |
| JobPlanning.InsertValid | perform_selection.py:125-132 | inserting valid jobs keeps every entry valid and stored under its own key |
| JobPlanning.ProcessArgs | perform_selection.py:113-132 | the job dictionary has only valid jobs, each under its key |
| JobPlanning.ProcessArgsFails | perform_selection.py:113-132 | the dictionary fails iff some file fails |
| JobPlanning.ProcessArgsComplete | perform_selection.py:113-132 | every job of every file is in the dictionary |
| JobPlanning.AddSetJobs | perform_selection.py:128-132 | the nested JME loops insert exactly JobsFor |
| JobPlanning.BuildProcessArgs | perform_selection.py:113-132 | the driver loop equals ProcessArgs |
| JobPlanning.JobOutputRoundTrip | THselection.py:102-105 | a job's output name parses back to its key |
| JobPlanning.Combinations | perform_selection.py:137-148 | per name, the combination read by the corrected ParseResultName; Err at the first name that fails |
| JobPlanning.ParseCombinations | perform_selection.py:137-148 | the loop over names equals Combinations |
| JobPlanning.FinishedJobsNotPending | perform_selection.py:150-158 | a job still runs iff no existing output parses to its key |
| PostProcessing.SelectionFile | perform_selection.py:50 | the file-name pattern rootfiles/TH{studies,selection}_<set><mod>_<year><suffix>.root |
| PostProcessing.PartsLonger | perform_selection.py:51-94 | every source name is longer than the target, so no hadd overwrites an input |
| PostProcessing.Suffixes | perform_selection.py:52-53 | '' only for QCD or studies; otherwise '' plus the eight JME suffixes |
| PostProcessing.StitchSafe | perform_selection.py:55-58 | the stitched file is never one of its sources |
| PostProcessing.HaddsOverFacts | perform_selection.py:49-95 | one command per year and suffix, all safe |
| PostProcessing.CommonSetHadds | perform_selection.py:43-44 | ValueError iff the group is not combinable |
| PostProcessing.CommonSetHaddsShape | perform_selection.py:49-95 | 3 commands for QCD or studies, 27 otherwise, all safe |
| PostProcessing.DriversAgree | THplotter.py:45-46 | QCD and ttbar combine the same under both drivers; W and Z raise ValueError in the plotter only |
| PostProcessing.StitchYear | perform_selection.py:50-95 | the per-year loop equals YearHadds |
| PostProcessing.CombineCommonSets | perform_selection.py:38-95 | the year loop equals CommonSetHadds |
| PostProcessing.LeadMassFile | leading_jet_studies.py:105 | the file-name pattern rootfiles/leadMassStudies_<set>_<year>.root |
| PostProcessing.LeadMassFacts | leading_jet_studies.py:104-119 | one safe command per year for ttbar or QCD, none otherwise |
| PostProcessing.LeadMassShape | leading_jet_studies.py:104-119 | 3 commands for ttbar or QCD, 0 for any other group |
| PostProcessing.CombineLeadMassSets | leading_jet_studies.py:95-119 | the year loop equals LeadMassHadds |
| PlotInputs.HistDictOf | perform_selection.py:19-36 | Ok iff every file is readable and has the histogram; then signal procs are in sig, 'Data' in data and the rest in bkg |
| PlotInputs.ClassifyEntry | perform_selection.py:29-35 | classifying a file sets exactly its process's entry |
| PlotInputs.HistDictLastWins | perform_selection.py:19-36 | the last file of a process provides its entry |
| PlotInputs.GetHistDict | perform_selection.py:19-36 | the loop equals HistDictOf |
| PlotInputs.PlotterFilesTprimeAsBackground | THplotter.py:32 | with the plotter's 'StoAA' tag a 'TprimeB-1000' file goes to bkg; with 'Tprime' it goes to sig |
| PlotInputs.PlotterFileJobs | THplotter.py:96-110 | studies: Data none, others one job; otherwise 9 for MC non-QCD, 1 for Data/QCD |
| PlotInputs.PlotterMatchesSelection | THplotter.py:103-110 | outside studies mode the plotter plans what the selection driver plans |
| PlotInputs.PlotterRejectsAPV | THplotter.py:99-110 | a 16APV file raises KeyError in the plotter where the selection driver succeeds |
| PlotInputs.PlotterJobsOf | THplotter.py:95-110 | Ok iff every file's jobs are |
| PlotInputs.AppendSetJobs | THplotter.py:103-108 | the nested loops append exactly JobsFor |
| PlotInputs.Multicore | THplotter.py:82-110 | the loop over files equals PlotterJobsOf |
| PlotInputs.OptimizeFamilies | THplotter.py:127-130 | the optimize flag holds for 'deep…' and 'particleNet…' names, and only for names starting with 'deep' or 'part' |

## Left out

- ROOT I/O, TIMBER and hadd are not modelled. This covers histogramming, `glob`, `ExecuteCmd`,
  multiprocessing, argparse and all printing. The TIMBER `analyzer` (`Cut`, `Define`,
  `MakeWeightCols`, …) is an external library. Its selection strings are modelled as
  predicates, and `hadd` commands as `Hadd(target, sources)` values.
- Floating point is not modelled exactly. `float` and `double` are `real`, and float32 rounding
  of the tables and comparisons is ignored. IEEE special values (±∞, NaN, ±0) are modelled only
  where a division can vanish.
- Kinematic helpers are not modelled. `DeltaPhi`, `DeltaR`, invariant masses, `SmassCalc*`,
  `dRCalc*`, `TPmassCalc*`, `PickDiphotons_X`, `PickLeadingDiJetsDR`, `PickDijetsNminus1`,
  `LepbJetPtRel`, `TwoDCutV2` and the neutrino helpers were left out because they are pure
  float kinematics. Where a picker uses ΔΦ or ΔR, that function is a parameter.
- Code with undefined behaviour is not modelled:
  - `updatePhotonTag` writes past its output;
  - `FindMothersPdgId` in the two all-hadronic modules writes into an empty vector;
  - `PickDijetsV3_ALL` indexes with -1;
  - `PickGEN*` and `GEN*Calc*` read index -1.

  The well-defined `FindMothersPdgId` of `ttbarmodules.cc` is modelled.
- `RAND()` (from `std::random_device`) and `TRandom::Rndm()` are not modelled. The draws are
  parameters: free functions take them as arguments, and handlers take a stream `nat -> real`
  and a cursor. The repeatability of the seed 1234 stream is therefore assumed, not derived.
- `printVals`, the `SF < 0.7` diagnostic and the warning prints are left out; they only write to
  stderr/stdout.
- Functions that are textually identical in several files are modelled once. This covers the
  migration functions, `PickTop*`, `MatchToGen`/`PickTopGenMatch`, the un-suffixed leading
  pickers, `GetProcYear*`, `JMEvariationStr` and the set-name rules. Their rows cite one copy.
  The `TTmodules_original.cc` vetoes equal those of `TTmodules.cc`. Per-file differences
  (cuts, the first pT edge) are separate members.
- `PNetTopSFHandler`'s `_wp` is stored but never used, and the model does not read it either.
- `XbbSF.Handler.UpdateJet`: this member uses the corrected vector rule `VectorUpdate`, not the
  as-written one (see Findings).
- `JobPlanning.ParseCombinations`: this member uses the corrected `ParseResultName`, not the
  as-written one (see Findings).
- `XbbSF.Handler.UpdateTags`: this member applies `UpdateJet` to each jet, so it also uses the
  corrected vector rule, not the as-written one (see Findings).
- `JobPlanning.Combinations`: this member uses the corrected `ParseResultName`, not the
  as-written one (see Findings).
- `TopSF.Handler.UpdateTag`: this member migrates with the corrected `TopSelection.GetNewTopCat`,
  which keeps the old category when no migration happens. The source's `getNewCat` returns an
  uninitialised value in that case, and `updateTag` then uses it as an index into
  `_newTags_idx0`/`_newTags_idx1` (see Findings).
- In the selection driver's `CombineCommonSets`, the branch `elif groupname == 'W' or 'Z'` has
  a condition that is always true. The guard before it already limits the group to W or Z, so
  the model treats the branch as "W or Z".
- The `Namespace` passed by `perform_selection.py` lacks `HT` and `threads`, which
  `THselection` reads. The model takes `HT` as a parameter of the output name. The pool size and
  thread counts are left out.
- `multicore(infiles=[])` falls back to `GetAllFiles()`, a glob. That fallback is left out, and
  the file list is a parameter.
- `MakeRun2` issues a single hadd with no guard and is not modelled.
- Python dictionary iteration order is left out. The pending jobs are a set of keys.
- Histogram objects are stood for by their file name. The histogram-exists test is a parameter.
- `PickTopWithSFs` of `TTmodules.cc` equals the THmodules copy modelled by
  `TopSelection.PickTopWithSFs`.

## Findings

| source | as written | input that shows it | evidently intended | confidence | as-written member | corrected member |
|---|---|---|---|---|---|---|
| ParticleNet_XbbSF.cc:298-302 | in the SF > 1 branch a jet first set to 2 can be incremented again, to 3, and then `_newTags[3]` is indexed at line 316 | category 0, SF_L = SF_T = 1.206, effs 0.3/0.3, draw 0.01 | a jet promoted to tight stays tight, so categories stay in {0,1,2} | not executed | MigrationRecipe.VectorUpdateReachesThree | MigrationRecipe.VectorUpdateCorrection |
| ParticleNet_TopSF.cc:138-156 | `newCat` is assigned only when a migration happens and is otherwise returned uninitialised | SF = 0.9, old category 0, eff 0.5, draw 0.3 | newCat starts as oldCat, as in getNewTopCat of the modules | not executed | TopSF.GetNewCatUninitialised | TopSelection.GetNewTopCat |
| perform_selection.py:137-148 | the set, era and variation are read from fields 1, 2 and 3-4 of the result name, but the file name written at THselection.py:102-105 has 'HT…' as field 1 | the output of job 'TprimeB-1800 16 JES_up' with HT 750 parses to 'HT750 TprimeB-1800 16_JES', so the finished job is run again | read fields 2, 3 and 4-5, past the HT field | not executed | JobNames.ParseResultNameAsWrittenMisreads | JobNames.ParseResultNameRoundTrip |
