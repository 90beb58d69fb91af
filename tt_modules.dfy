/** The per-event functions of the all-hadronic selection module (TTmodules.cc) that are not shared
    word for word with the other modules: its lepton-veto cuts, its scale-factor pT edge, the
    diphoton categories and scale factors, and its jet and photon pickers. */
module TTModules {
  import opened Wrappers
  import opened Ieee
  import opened CSwitch
  import opened JetPicking
  import opened LeptonVetoes
  import Eras
  import TopScaleFactors
  import opened TopSelection

  // ---------------------------------------------------------------- lepton vetoes

  /** A muon counted by `TightMuVeto`: tight ID, pT > 15, relative isolation < 0.15, |eta| < 3. */
  predicate TightMuon(tightId: seq<bool>, pt: seq<real>, relIso: seq<real>, eta: seq<real>, i: int)
    requires |tightId| >= |pt| && |relIso| >= |pt| && |eta| >= |pt|
  {
    0 <= i < |pt| && tightId[i] && pt[i] > 15.0 && relIso[i] < 0.15 && Abs(eta[i]) < 3.0
  }

  /** An electron counted by `TightElVeto`: isolated, pT > 15, |eta| < 3. */
  predicate TightElectron(iso: seq<bool>, pt: seq<real>, eta: seq<real>, i: int)
    requires |iso| >= |pt| && |eta| >= |pt|
  {
    0 <= i < |pt| && iso[i] && pt[i] > 15.0 && Abs(eta[i]) < 3.0
  }

  /** A muon counted by `GoodMuVeto`: pT > 15, loose ID, |dxy| < 0.02, |eta| < 3. */
  predicate GoodMuon(pt: seq<real>, looseId: seq<bool>, dxy: seq<real>, eta: seq<real>, i: int)
    requires |looseId| >= |pt| && |dxy| >= |pt| && |eta| >= |pt|
  {
    0 <= i < |pt| && pt[i] > 15.0 && looseId[i] && Abs(dxy[i]) < 0.02 && Abs(eta[i]) < 3.0
  }

  /** An electron counted by `GoodElVeto`: pT > 15, isolated, |dxy| < 0.05, |eta| < 3. */
  predicate GoodElectron(pt: seq<real>, iso: seq<bool>, dxy: seq<real>, eta: seq<real>, i: int)
    requires |iso| >= |pt| && |dxy| >= |pt| && |eta| >= |pt|
  {
    0 <= i < |pt| && pt[i] > 15.0 && iso[i] && Abs(dxy[i]) < 0.05 && Abs(eta[i]) < 3.0
  }

  /** `TightMuVeto`: true when the event has a muon passing the tight cuts. */
  method TightMuVeto(nMuon: int, tightId: seq<bool>, muonPt: seq<real>, muonRelIso: seq<real>, muonEta: seq<real>)
    returns (veto: bool)
    requires |tightId| >= |muonPt| && |muonRelIso| >= |muonPt| && |muonEta| >= |muonPt|
    ensures veto <==> nMuon >= 1 && exists i :: 0 <= i < |muonPt| && TightMuon(tightId, muonPt, muonRelIso, muonEta, i)
  {
    var passes := i => TightMuon(tightId, muonPt, muonRelIso, muonEta, i);
    veto := VetoLoop(nMuon, |muonPt|, passes);
    assert forall i :: passes(i) == TightMuon(tightId, muonPt, muonRelIso, muonEta, i);
  }

  /** `TightElVeto`: true when the event has an electron passing the tight cuts. */
  method TightElVeto(nElectron: int, elIso: seq<bool>, elPt: seq<real>, elEta: seq<real>) returns (veto: bool)
    requires |elIso| >= |elPt| && |elEta| >= |elPt|
    ensures veto <==> nElectron >= 1 && exists i :: 0 <= i < |elPt| && TightElectron(elIso, elPt, elEta, i)
  {
    var passes := i => TightElectron(elIso, elPt, elEta, i);
    veto := VetoLoop(nElectron, |elPt|, passes);
    assert forall i :: passes(i) == TightElectron(elIso, elPt, elEta, i);
  }

  /** `GoodMuVeto`: true when the event has a muon passing the loose cuts. */
  method GoodMuVeto(nMuon: int, muonPt: seq<real>, looseId: seq<bool>, dxy: seq<real>, muonEta: seq<real>)
    returns (veto: bool)
    requires |looseId| >= |muonPt| && |dxy| >= |muonPt| && |muonEta| >= |muonPt|
    ensures veto <==> nMuon >= 1 && exists i :: 0 <= i < |muonPt| && GoodMuon(muonPt, looseId, dxy, muonEta, i)
  {
    var passes := i => GoodMuon(muonPt, looseId, dxy, muonEta, i);
    veto := VetoLoop(nMuon, |muonPt|, passes);
    assert forall i :: passes(i) == GoodMuon(muonPt, looseId, dxy, muonEta, i);
  }

  /** `GoodElVeto`: true when the event has an electron passing the loose cuts. */
  method GoodElVeto(nElectron: int, elPt: seq<real>, elIso: seq<bool>, dxy: seq<real>, elEta: seq<real>)
    returns (veto: bool)
    requires |elIso| >= |elPt| && |dxy| >= |elPt| && |elEta| >= |elPt|
    ensures veto <==> nElectron >= 1 && exists i :: 0 <= i < |elPt| && GoodElectron(elPt, elIso, dxy, elEta, i)
  {
    var passes := i => GoodElectron(elPt, elIso, dxy, elEta, i);
    veto := VetoLoop(nElectron, |elPt|, passes);
    assert forall i :: passes(i) == GoodElectron(elPt, elIso, dxy, elEta, i);
  }

  // ---------------------------------------------------------------- top scale factors

  /** `getSF` of this module: first pT bin [350, 400); 1.0 below 350 GeV and from 1200 GeV up. */
  function GetSF(jetCat: int, pt: real, year: string, variation: int): (r: Option<real>)
    requires 350.0 <= pt < 1200.0 ==> 0 <= variation < 3
    ensures !(350.0 <= pt < 1200.0) ==> r == Some(1.0)
    ensures 350.0 <= pt < 1200.0 ==> (r.Some? <==> jetCat == 0 || jetCat == 1)
    ensures 350.0 <= pt < 400.0 && jetCat == 1 ==> r == Some(TopScaleFactors.TightTable(Eras.EraOf(year))[variation][0])
    ensures 350.0 <= pt < 400.0 && jetCat == 0 ==> r == Some(TopScaleFactors.LooseTable(Eras.EraOf(year))[variation][0])
    ensures 600.0 <= pt < 1200.0 && jetCat == 1 ==> r == Some(TopScaleFactors.TightTable(Eras.EraOf(year))[variation][3])
  {
    TopScaleFactors.GetSF(jetCat, pt, year, variation, 350.0)
  }

  /** `PickTopWithSFs2`: it computes categories, scale factors and draws, but its selection block
      sits under `if (invertScore)` with `invertScore` fixed to false, so the value-initialised
      output {0,0} is returned for every event. */
  function PickTopWithSFs2(tvsQCD: seq<real>, pt: seq<real>, idxs: seq<int>, scoreCut: real, eff0: real, eff1: real,
                           year: string, variation: int, rand0: real, rand1: real): (out: seq<int>)
    requires |tvsQCD| == |pt| && PairInRange(idxs, |pt|)
    ensures out == [0, 0]
  {
    [0, 0]
  }

  // ---------------------------------------------------------------- diphoton categories

  /** `getDiPhotonCat`: how many of the two leading photons reach the working point (>=). */
  function GetDiPhotonCat(taggerVal: seq<real>, taggerWP: real): (r: int)
    requires |taggerVal| >= 2
    ensures r == (if taggerVal[0] >= taggerWP then 1 else 0) + (if taggerVal[1] >= taggerWP then 1 else 0)
  {
    if taggerVal[0] >= taggerWP && taggerVal[1] >= taggerWP then 2
    else if taggerVal[0] < taggerWP && taggerVal[1] < taggerWP then 0
    else 1
  }

  /** Lower edges of the photon eta bins 1..9; bin 0 is everything below -2.0. */
  function EtaEdge(k: nat): real
    requires k < 9
  {
    [-2.0, -1.566, -1.444, -0.8, 0.0, 0.8, 1.444, 1.566, 2.0][k]
  }

  /** Lower edges of the photon pT bins 1..4; bin 0 is everything below 35 GeV. */
  function PhotonPtEdge(k: nat): real
    requires k < 4
  {
    [35.0, 50.0, 80.0, 120.0][k]
  }

  /** The eta bin of a photon in `getPhotonSF`: the number of bin edges at or below eta. */
  function EtaCat(eta: real): (c: nat)
    ensures c <= 9
    ensures c == 0 || EtaEdge(c - 1) <= eta
    ensures c == 9 || eta < EtaEdge(c)
  {
    if eta >= 2.0 then 9
    else if eta >= 1.566 && eta < 2.0 then 8
    else if eta >= 1.444 && eta < 1.566 then 7
    else if eta >= 0.8 && eta < 1.444 then 6
    else if eta >= 0.0 && eta < 0.8 then 5
    else if eta >= -0.8 && eta < 0.0 then 4
    else if eta >= -1.444 && eta < -0.8 then 3
    else if eta >= -1.566 && eta < -1.444 then 2
    else if eta >= -2.0 && eta < -1.566 then 1
    else 0
  }

  lemma EtaCatMonotone(eta1: real, eta2: real)
    requires eta1 <= eta2
    ensures EtaCat(eta1) <= EtaCat(eta2)
  {
  }

  /** The pT bin of a photon in `getPhotonSF`. */
  function PhotonPtCat(pt: real): (c: nat)
    ensures c <= 4
    ensures c == 0 || PhotonPtEdge(c - 1) <= pt
    ensures c == 4 || pt < PhotonPtEdge(c)
  {
    if pt >= 120.0 then 4
    else if pt >= 80.0 && pt < 120.0 then 3
    else if pt >= 50.0 && pt < 80.0 then 2
    else if pt >= 35.0 && pt < 50.0 then 1
    else 0
  }

  lemma PhotonPtCatMonotone(pt1: real, pt2: real)
    requires pt1 <= pt2
    ensures PhotonPtCat(pt1) <= PhotonPtCat(pt2)
  {
  }

  /** The 2016 photon scale-factor tables, [eta bin][pT bin]: loose, medium and tight. */
  function PhotonTable(wp: nat): (t: seq<seq<real>>)
    requires wp < 3
    ensures Eras.IsGrid(t, 10, 5)
  {
    if wp == 0 then
    [ [1.0037453174591064, 1.0, 0.9967776536941528, 1.006355881690979, 0.9851064085960388],
      [0.9605911374092102, 0.969264566898346, 0.9806034564971924, 0.9892473220825195, 1.0344061851501465],
      [1.035433053970337, 0.9954954981803894, 0.9909604787826538, 1.0199296474456787, 0.9351415038108826],
      [0.9953106641769409, 0.9913138151168823, 0.9825897812843323, 1.0178173780441284, 0.9988725781440735],
      [0.989195704460144, 0.9824753403663635, 0.9769737124443054, 1.0066889524459839, 0.994356632232666],
      [0.9856114983558655, 0.9835526347160339, 0.9769483804702759, 1.0033669471740723, 1.0158730745315552],
      [0.9952940940856934, 0.990217387676239, 0.984749436378479, 1.0066889524459839, 1.0135135650634766],
      [0.9880319237709045, 0.9966063499450684, 0.9897843599319458, 1.0023781061172485, 1.0236612558364868],
      [0.9628252983093262, 0.9790979027748108, 0.982758641242981, 1.0129870176315308, 0.9967355728149414],
      [0.99622642993927, 0.9934065937995911, 0.9967880249023438, 1.022459864616394, 1.0201913118362427] ]
    else if wp == 1 then
    [ [1.0384024381637573, 1.0325098037719727, 1.0225000381469727, 1.0295202732086182, 1.0183823108673096],
      [0.9677419066429138, 0.9853300452232361, 0.9892473220825195, 0.9869513511657715, 1.028678297996521],
      [1.052901029586792, 1.0067843198776245, 1.0013889074325562, 0.9956011772155762, 1.0119940042495728],
      [1.0, 0.9914634227752686, 0.9890776872634888, 1.0245699882507324, 1.0260869264602661],
      [0.9548022747039795, 0.9740419983863831, 0.9670329689979553, 1.0037267208099365, 1.0162907838821411],
      [0.9831223487854004, 0.9802225232124329, 0.9694749712944031, 0.9975185990333557, 1.009987473487854],
      [0.9986187815666199, 0.9926560521125793, 0.9878345727920532, 1.018587350845337, 1.0270936489105225],
      [1.0260416269302368, 1.0027472972869873, 0.9707520604133606, 1.0252366065979004, 1.0160771608352661],
      [0.9731638431549072, 0.9852941036224365, 0.9844311475753784, 1.0365407466888428, 1.0182703733444214],
      [1.0428789854049683, 1.0284605026245117, 1.0124223232269287, 1.0602705478668213, 1.0550122261047363] ]
    else
    [ [1.045918345451355, 1.0369843244552612, 1.0328317880630493, 1.022757649421692, 1.0284552574157715],
      [0.9825396537780762, 0.9904502034187317, 0.9920424222946167, 1.0052909851074219, 1.0647886991500854],
      [1.041338562965393, 1.015455961227417, 1.0125983953475952, 1.0856643915176392, 1.0301003456115723],
      [1.0032051801681519, 0.9972106218338013, 0.9917582273483276, 1.0233516693115234, 1.0361111164093018],
      [0.9817578792572021, 0.9759206771850586, 0.9681440591812134, 1.0055943727493286, 1.0070126056671143],
      [0.9884488582611084, 0.9816384315490723, 0.969613254070282, 0.9986013770103455, 1.0166898965835571],
      [1.0097087621688843, 0.9985975027084351, 0.9944751262664795, 1.025174856185913, 1.026063084602356],
      [0.9778671860694885, 1.007836937904358, 0.9842767119407654, 0.975944995880127, 1.0263158082962036],
      [0.9760383367538452, 0.9904109835624695, 0.9826666712760925, 1.0405954122543335, 1.0272108316421509],
      [1.0439189672470093, 1.0339462757110596, 1.028493881225586, 1.061662197113037, 1.058432936668396] ]
  }

  /** One photon's factor: the switch on its working-point category, whose arms (1.0, loose,
      medium, tight) have no `break`.  Every category 0..3 therefore ends on the tight table, and
      any other category leaves the factor unassigned. */
  function PhotonLegSF(wpCat: int, eta: real, pt: real): (r: Option<real>)
    ensures r.Some? <==> 0 <= wpCat <= 3
    ensures r.Some? ==> r.value == PhotonTable(2)[EtaCat(eta)][PhotonPtCat(pt)]
  {
    var e, p := EtaCat(eta), PhotonPtCat(pt);
    FallThrough(wpCat, [1.0, PhotonTable(0)[e][p], PhotonTable(1)[e][p], PhotonTable(2)[e][p]])
  }

  /** `getPhotonSF`: the per-photon category is the tagger value truncated to int.  `ichoice` 1 or
      2 selects one photon's factor, anything else the product; a product with an unassigned
      factor is itself unassigned. */
  function GetPhotonSF(pt: seq<real>, eta: seq<real>, taggerVal: seq<real>, taggerWP: real, ichoice: int): (r: Option<real>)
    requires |pt| >= 2 && |eta| >= 2 && |taggerVal| >= 2
    ensures ichoice == 1 ==> r == PhotonLegSF(Trunc(taggerVal[0]), eta[0], pt[0])
    ensures ichoice == 2 ==> r == PhotonLegSF(Trunc(taggerVal[1]), eta[1], pt[1])
    ensures ichoice != 1 && ichoice != 2 ==>
      r == ProductSF(PhotonLegSF(Trunc(taggerVal[0]), eta[0], pt[0]), PhotonLegSF(Trunc(taggerVal[1]), eta[1], pt[1]))
  {
    var sf1 := PhotonLegSF(Trunc(taggerVal[0]), eta[0], pt[0]);
    var sf2 := PhotonLegSF(Trunc(taggerVal[1]), eta[1], pt[1]);
    if ichoice == 1 then sf1 else if ichoice == 2 then sf2 else ProductSF(sf1, sf2)
  }

  /** The product of two factors, unassigned when either is. */
  function ProductSF(sf1: Option<real>, sf2: Option<real>): (r: Option<real>)
    ensures r.Some? <==> sf1.Some? && sf2.Some?
    ensures r.Some? ==> r.value == sf1.value * sf2.value
  {
    if sf1.Some? && sf2.Some? then Some(sf1.value * sf2.value) else None
  }

  /** A tagger value in [0, 4) always yields a factor, whatever the working point. */
  lemma PhotonSFDefinedForCategories(pt: seq<real>, eta: seq<real>, taggerVal: seq<real>, taggerWP: real, ichoice: int)
    requires |pt| >= 2 && |eta| >= 2 && |taggerVal| >= 2
    requires 0.0 <= taggerVal[0] < 4.0 && 0.0 <= taggerVal[1] < 4.0
    ensures GetPhotonSF(pt, eta, taggerVal, taggerWP, ichoice).Some?
  {
  }

  // ---------------------------------------------------------------- dijet and diphoton pickers

  /** A jet candidate of `PickDijets`: pT > 350 and |eta| < 2.4. */
  function DijetCut(pt: seq<real>, eta: seq<real>): int -> bool
    requires |eta| >= |pt|
  {
    k => 0 <= k < |pt| && pt[k] > 350.0 && Abs(eta[k]) < 2.4
  }

  /** The second of the `n` jets of `PickDijets` lies within 1.6 in eta of the first. */
  function EtaClose(eta: seq<real>, n: nat): (int, int) -> bool
    requires |eta| >= n
  {
    (a, b) => 0 <= a < n && 0 <= b < n && Abs(eta[a] - eta[b]) < 1.6
  }

  /** Any pair of candidates will do. */
  function AnyPair(): (int, int) -> bool
  {
    (a, b) => true
  }

  /** `PickDijets`: the first candidate jet, and the first later candidate close to it in eta. */
  method PickDijets(pt: seq<real>, eta: seq<real>) returns (out: seq<int>)
    requires |eta| >= |pt|
    ensures |out| == 2 && (out[0], out[1]) == FirstPair(|pt|, DijetCut(pt, eta), EtaClose(eta, |pt|))
  {
    var j0, j1 := PickFirstPair(|pt|, DijetCut(pt, eta), EtaClose(eta, |pt|));
    out := [j0, j1];
  }

  /** A photon candidate of `PickDiphotons`: pT > 25. */
  function PhotonCut(pt: seq<real>): int -> bool
  {
    k => 0 <= k < |pt| && pt[k] > 25.0
  }

  /** `PickDiphotons`: the first two photons with pT > 25. */
  method PickDiphotons(pt: seq<real>) returns (out: seq<int>)
    ensures |out| == 2 && (out[0], out[1]) == FirstPair(|pt|, PhotonCut(pt), AnyPair())
  {
    var j0, j1 := PickFirstPair(|pt|, PhotonCut(pt), AnyPair());
    out := [j0, j1];
  }

  /** The region code of `PickDijetsV`: 1 when both jets are b-tagged (> 0.8), 0 when one is, -1
      otherwise; an empty slot carries the tag value -1. */
  function RegionId(tag0: real, tag1: real): (r: real)
    ensures r == 1.0 <==> tag0 > 0.8 && tag1 > 0.8
    ensures r == 0.0 <==> (tag0 > 0.8) != (tag1 > 0.8)
    ensures r == -1.0 <==> tag0 <= 0.8 && tag1 <= 0.8
  {
    if tag0 > 0.8 && tag1 > 0.8 then 1.0
    else if tag0 > 0.8 || tag1 > 0.8 then 0.0
    else -1.0
  }

  /** The column value at `idx`, or -1 for an empty slot. */
  function At(column: seq<real>, idx: int): real
    requires -1 <= idx < |column|
  {
    if idx == -1 then -1.0 else column[idx]
  }

  /** `PickDijetsV`: the first two candidate jets (no pairing condition) and their
      {IdReg, pt0, pt1, eta0, eta1, phi0, phi1, mass0, mass1, tag0, tag1}, -1 in empty slots. */
  method PickDijetsV(pt: seq<real>, eta: seq<real>, phi: seq<real>, mass: seq<real>, btag: seq<real>)
    returns (out: seq<real>)
    requires |eta| == |pt| && |phi| == |pt| && |mass| == |pt| && |btag| == |pt|
    ensures var j := FirstPair(|pt|, DijetCut(pt, eta), AnyPair());
      -1 <= j.0 < |pt| && -1 <= j.1 < |pt| &&
      out == [RegionId(At(btag, j.0), At(btag, j.1)), At(pt, j.0), At(pt, j.1), At(eta, j.0), At(eta, j.1),
              At(phi, j.0), At(phi, j.1), At(mass, j.0), At(mass, j.1), At(btag, j.0), At(btag, j.1)]
    ensures out[0] == 1.0 ==> -1.0 < out[1] && -1.0 < out[2]
  {
    var j0, j1 := PickFirstPair(|pt|, DijetCut(pt, eta), AnyPair());
    var tag0, tag1 := At(btag, j0), At(btag, j1);
    out := [RegionId(tag0, tag1), At(pt, j0), At(pt, j1), At(eta, j0), At(eta, j1),
            At(phi, j0), At(phi, j1), At(mass, j0), At(mass, j1), tag0, tag1];
  }

  /** A jet candidate of `PickDijetsV3`: the `PickDijets` cut plus a b tag above 0.8. */
  function TaggedDijetCut(pt: seq<real>, eta: seq<real>, btag: seq<real>): int -> bool
    requires |eta| >= |pt| && |btag| >= |pt|
  {
    k => 0 <= k < |pt| && pt[k] > 350.0 && Abs(eta[k]) < 2.4 && btag[k] > 0.8
  }

  /** `PickDijetsV3`: `PickDijets` restricted to b-tagged jets. */
  method PickDijetsV3(pt: seq<real>, eta: seq<real>, btag: seq<real>) returns (out: seq<int>)
    requires |eta| >= |pt| && |btag| >= |pt|
    ensures |out| == 2 && (out[0], out[1]) == FirstPair(|pt|, TaggedDijetCut(pt, eta, btag), EtaClose(eta, |pt|))
  {
    var j0, j1 := PickFirstPair(|pt|, TaggedDijetCut(pt, eta, btag), EtaClose(eta, |pt|));
    out := [j0, j1];
  }

  /** A b-tagged pick is a plain pick whenever every jet is b-tagged. */
  lemma AllTaggedPicksAgree(pt: seq<real>, eta: seq<real>, btag: seq<real>)
    requires |eta| >= |pt| && |btag| >= |pt| && forall k :: 0 <= k < |pt| ==> btag[k] > 0.8
    ensures FirstPair(|pt|, TaggedDijetCut(pt, eta, btag), EtaClose(eta, |pt|)) == FirstPair(|pt|, DijetCut(pt, eta), EtaClose(eta, |pt|))
  {
    FirstPairCongruent(|pt|, TaggedDijetCut(pt, eta, btag), DijetCut(pt, eta), EtaClose(eta, |pt|), EtaClose(eta, |pt|));
  }

  // ---------------------------------------------------------------- leading photons

  /** `PickLeadingDiPhotons` of this module: {pt0, pt1, eta0, eta1, phi0, phi1, mass0, mass1,
      mvaID0, mvaID1} of photons 0 and 1, defaults -1 (pT, mass) and -5 (eta, phi, mvaID). */
  function PickLeadingDiPhotons(pt: seq<real>, eta: seq<real>, phi: seq<real>, mass: seq<real>, mvaID: seq<real>): (out: seq<real>)
    requires |eta| >= |pt| && |phi| >= |pt| && |mass| >= |pt| && |mvaID| >= |pt|
    ensures |out| == 10
    ensures |pt| == 0 ==> out == [-1.0, -1.0, -5.0, -5.0, -5.0, -5.0, -1.0, -1.0, -5.0, -5.0]
    ensures |pt| > 0 ==> out[0] == pt[0] && out[2] == eta[0] && out[4] == phi[0] && out[6] == mass[0] && out[8] == mvaID[0]
    ensures |pt| > 1 ==> out[1] == pt[1] && out[3] == eta[1] && out[5] == phi[1] && out[7] == mass[1] && out[9] == mvaID[1]
    ensures |pt| <= 1 ==> out[1] == -1.0 && out[3] == -5.0 && out[5] == -5.0 && out[7] == -1.0 && out[9] == -5.0
  {
    if |pt| > 0 then
      if |pt| > 1 then [pt[0], pt[1], eta[0], eta[1], phi[0], phi[1], mass[0], mass[1], mvaID[0], mvaID[1]]
      else [pt[0], -1.0, eta[0], -5.0, phi[0], -5.0, mass[0], -1.0, mvaID[0], -5.0]
    else [-1.0, -1.0, -5.0, -5.0, -5.0, -5.0, -1.0, -1.0, -5.0, -5.0]
  }

  /** `PickLeadingDiPhotonsI`: the cut-based IDs of photons 0 and 1, -1 for a missing photon. */
  function PickLeadingDiPhotonsI(pt: seq<real>, cutBased: seq<int>): (out: seq<int>)
    requires |cutBased| >= |pt|
    ensures |out| == 2
    ensures out[0] == (if |pt| > 0 then cutBased[0] else -1)
    ensures out[1] == (if |pt| > 1 then cutBased[1] else -1)
  {
    if |pt| > 0 then [cutBased[0], if |pt| > 1 then cutBased[1] else -1] else [-1, -1]
  }

  // ---------------------------------------------------------------- two-jet tag selectors

  /** `PickTagF`: a jet passes when its score is strictly above the cut; with both passing idx0
      always leads. */
  function PickTagF(tagScore: seq<real>, idxs: seq<int>, scoreCut: real): (out: seq<int>)
    requires PairInRange(idxs, |tagScore|)
    ensures OrderedPick(out, idxs[0], idxs[1], scoreCut < tagScore[idxs[0]], scoreCut < tagScore[idxs[1]], true)
  {
    OrderTops(scoreCut < tagScore[idxs[0]], scoreCut < tagScore[idxs[1]], true, idxs[0], idxs[1])
  }

  /** `PickTagI`: `PickTagF` on integer tagger categories. */
  function PickTagI(tagScore: seq<int>, idxs: seq<int>, scoreCut: int): (out: seq<int>)
    requires PairInRange(idxs, |tagScore|)
    ensures OrderedPick(out, idxs[0], idxs[1], scoreCut < tagScore[idxs[0]], scoreCut < tagScore[idxs[1]], true)
  {
    OrderTops(scoreCut < tagScore[idxs[0]], scoreCut < tagScore[idxs[1]], true, idxs[0], idxs[1])
  }

  /** `PickTop_Simple`: `PickTop` without the mass window. */
  function PickTopSimple(tagScore: seq<real>, idxs: seq<int>, scoreCut: real, invert: bool): (out: seq<int>)
    requires PairInRange(idxs, |tagScore|)
    ensures var i0, i1 := idxs[0], idxs[1];
      OrderedPick(out, i0, i1,
        if !invert then tagScore[i0] > scoreCut else AntiTag(tagScore[i0], scoreCut),
        if !invert then tagScore[i1] > scoreCut else AntiTag(tagScore[i1], scoreCut),
        tagScore[i0] > tagScore[i1])
  {
    var i0, i1 := idxs[0], idxs[1];
    var pass0 := if !invert then tagScore[i0] > scoreCut else AntiTag(tagScore[i0], scoreCut);
    var pass1 := if !invert then tagScore[i1] > scoreCut else AntiTag(tagScore[i1], scoreCut);
    OrderTops(pass0, pass1, tagScore[i0] > tagScore[i1], i0, i1)
  }

  /** With an infinitely wide mass window `PickTop` reduces to `PickTop_Simple`. */
  lemma PickTopWithoutWindow(mass: seq<real>, tagScore: seq<real>, idxs: seq<int>, massLo: real, massHi: real,
                             scoreCut: real, invert: bool)
    requires |mass| == |tagScore| && PairInRange(idxs, |mass|)
    requires forall k :: 0 <= k < |mass| ==> massLo < mass[k] < massHi
    ensures PickTop(mass, tagScore, idxs, massLo, massHi, scoreCut, invert) == PickTopSimple(tagScore, idxs, scoreCut, invert)
  {
  }

  // ---------------------------------------------------------------- jet plus photons

  /** A jet candidate of this module's `PickJetAnd2Gamma`: pT > 350, |eta| < 3 and positive mass. */
  function JetGammaCut(pt: seq<real>, eta: seq<real>, mass: seq<real>): int -> bool
    requires |eta| >= |pt| && |mass| >= |pt|
  {
    k => 0 <= k < |pt| && pt[k] > 350.0 && Abs(eta[k]) < 3.0 && mass[k] > 0.0
  }

  /** `PickJetAnd2Gamma`: {0,-1,-1} when jet 0 passes the cuts, {-1,-1,-1} otherwise. */
  method PickJetAnd2Gamma(pt: seq<real>, eta: seq<real>, mass: seq<real>) returns (out: seq<int>)
    requires |eta| >= |pt| && |mass| >= |pt|
    ensures out == if |pt| > 0 && pt[0] > 350.0 && Abs(eta[0]) < 3.0 && mass[0] > 0.0 then [0, -1, -1] else [-1, -1, -1]
  {
    out := JetPicking.PickJetAnd2Gamma(|pt|, JetGammaCut(pt, eta, mass));
  }
}
