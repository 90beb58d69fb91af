/** The per-event functions of the semileptonic selection module (THmodules.cc) that differ from the
    all-hadronic one: the lepton-veto thresholds, the first scale-factor pT edge (300 GeV) and the
    dijet picker.  Its migration rule, `PickTopWithSFs`, `PickTop`, `PickTopCRv2`, `MatchToGen`
    and `PickTopGenMatch` are the shared members of module TopSelection. */
module THModules {
  import opened Wrappers
  import opened Ieee
  import opened JetPicking
  import opened LeptonVetoes
  import Eras
  import TopScaleFactors
  import TTModules

  /** A muon counted by `TightMuVeto`: tight ID, pT > 30, relative isolation < 0.15, |eta| < 2.4. */
  predicate TightMuon(tightId: seq<bool>, pt: seq<real>, relIso: seq<real>, eta: seq<real>, i: int)
    requires |tightId| >= |pt| && |relIso| >= |pt| && |eta| >= |pt|
  {
    0 <= i < |pt| && tightId[i] && pt[i] > 30.0 && relIso[i] < 0.15 && Abs(eta[i]) < 2.4
  }

  /** An electron counted by `TightElVeto`: isolated, pT > 35, |eta| < 2.5. */
  predicate TightElectron(iso: seq<bool>, pt: seq<real>, eta: seq<real>, i: int)
    requires |iso| >= |pt| && |eta| >= |pt|
  {
    0 <= i < |pt| && iso[i] && pt[i] > 35.0 && Abs(eta[i]) < 2.5
  }

  /** A muon counted by `GoodMuVeto`: pT > 30, loose ID, |dxy| < 0.02, |eta| < 2.4. */
  predicate GoodMuon(pt: seq<real>, looseId: seq<bool>, dxy: seq<real>, eta: seq<real>, i: int)
    requires |looseId| >= |pt| && |dxy| >= |pt| && |eta| >= |pt|
  {
    0 <= i < |pt| && pt[i] > 30.0 && looseId[i] && Abs(dxy[i]) < 0.02 && Abs(eta[i]) < 2.4
  }

  /** An electron counted by `GoodElVeto`: pT > 35, isolated, |dxy| < 0.05, |eta| < 2.5. */
  predicate GoodElectron(pt: seq<real>, iso: seq<bool>, dxy: seq<real>, eta: seq<real>, i: int)
    requires |iso| >= |pt| && |dxy| >= |pt| && |eta| >= |pt|
  {
    0 <= i < |pt| && pt[i] > 35.0 && iso[i] && Abs(dxy[i]) < 0.05 && Abs(eta[i]) < 2.5
  }

  /** `TightMuVeto`: true when the event has a muon passing the semileptonic tight cuts. */
  method TightMuVeto(nMuon: int, tightId: seq<bool>, muonPt: seq<real>, muonRelIso: seq<real>, muonEta: seq<real>)
    returns (veto: bool)
    requires |tightId| >= |muonPt| && |muonRelIso| >= |muonPt| && |muonEta| >= |muonPt|
    ensures veto <==> nMuon >= 1 && exists i :: 0 <= i < |muonPt| && TightMuon(tightId, muonPt, muonRelIso, muonEta, i)
  {
    var passes := i => TightMuon(tightId, muonPt, muonRelIso, muonEta, i);
    veto := VetoLoop(nMuon, |muonPt|, passes);
    assert forall i :: passes(i) == TightMuon(tightId, muonPt, muonRelIso, muonEta, i);
  }

  /** `TightElVeto`: true when the event has an electron passing the semileptonic tight cuts. */
  method TightElVeto(nElectron: int, elIso: seq<bool>, elPt: seq<real>, elEta: seq<real>) returns (veto: bool)
    requires |elIso| >= |elPt| && |elEta| >= |elPt|
    ensures veto <==> nElectron >= 1 && exists i :: 0 <= i < |elPt| && TightElectron(elIso, elPt, elEta, i)
  {
    var passes := i => TightElectron(elIso, elPt, elEta, i);
    veto := VetoLoop(nElectron, |elPt|, passes);
    assert forall i :: passes(i) == TightElectron(elIso, elPt, elEta, i);
  }

  /** `GoodMuVeto`: true when the event has a muon passing the semileptonic loose cuts. */
  method GoodMuVeto(nMuon: int, muonPt: seq<real>, looseId: seq<bool>, dxy: seq<real>, muonEta: seq<real>)
    returns (veto: bool)
    requires |looseId| >= |muonPt| && |dxy| >= |muonPt| && |muonEta| >= |muonPt|
    ensures veto <==> nMuon >= 1 && exists i :: 0 <= i < |muonPt| && GoodMuon(muonPt, looseId, dxy, muonEta, i)
  {
    var passes := i => GoodMuon(muonPt, looseId, dxy, muonEta, i);
    veto := VetoLoop(nMuon, |muonPt|, passes);
    assert forall i :: passes(i) == GoodMuon(muonPt, looseId, dxy, muonEta, i);
  }

  /** `GoodElVeto`: true when the event has an electron passing the semileptonic loose cuts. */
  method GoodElVeto(nElectron: int, elPt: seq<real>, elIso: seq<bool>, dxy: seq<real>, elEta: seq<real>)
    returns (veto: bool)
    requires |elIso| >= |elPt| && |dxy| >= |elPt| && |elEta| >= |elPt|
    ensures veto <==> nElectron >= 1 && exists i :: 0 <= i < |elPt| && GoodElectron(elPt, elIso, dxy, elEta, i)
  {
    var passes := i => GoodElectron(elPt, elIso, dxy, elEta, i);
    veto := VetoLoop(nElectron, |elPt|, passes);
    assert forall i :: passes(i) == GoodElectron(elPt, elIso, dxy, elEta, i);
  }

  /** A semileptonic tight muon also passes the all-hadronic tight-muon cuts. */
  lemma TightMuonStricter(tightId: seq<bool>, pt: seq<real>, relIso: seq<real>, eta: seq<real>, i: int)
    requires |tightId| >= |pt| && |relIso| >= |pt| && |eta| >= |pt|
    requires TightMuon(tightId, pt, relIso, eta, i)
    ensures TTModules.TightMuon(tightId, pt, relIso, eta, i)
  {
  }

  /** Each semileptonic veto fires only on events the matching all-hadronic veto also fires on, so
      on the same columns this module keeps every event the all-hadronic module keeps. */
  lemma VetoesStricter(tightId: seq<bool>, looseId: seq<bool>, muonPt: seq<real>, muonRelIso: seq<real>,
                       muonDxy: seq<real>, muonEta: seq<real>, elIso: seq<bool>, elPt: seq<real>,
                       elDxy: seq<real>, elEta: seq<real>)
    requires |tightId| >= |muonPt| && |looseId| >= |muonPt| && |muonRelIso| >= |muonPt|
    requires |muonDxy| >= |muonPt| && |muonEta| >= |muonPt|
    requires |elIso| >= |elPt| && |elDxy| >= |elPt| && |elEta| >= |elPt|
    ensures (exists i :: 0 <= i < |muonPt| && TightMuon(tightId, muonPt, muonRelIso, muonEta, i)) ==>
      exists i :: 0 <= i < |muonPt| && TTModules.TightMuon(tightId, muonPt, muonRelIso, muonEta, i)
    ensures (exists i :: 0 <= i < |elPt| && TightElectron(elIso, elPt, elEta, i)) ==>
      exists i :: 0 <= i < |elPt| && TTModules.TightElectron(elIso, elPt, elEta, i)
    ensures (exists i :: 0 <= i < |muonPt| && GoodMuon(muonPt, looseId, muonDxy, muonEta, i)) ==>
      exists i :: 0 <= i < |muonPt| && TTModules.GoodMuon(muonPt, looseId, muonDxy, muonEta, i)
    ensures (exists i :: 0 <= i < |elPt| && GoodElectron(elPt, elIso, elDxy, elEta, i)) ==>
      exists i :: 0 <= i < |elPt| && TTModules.GoodElectron(elPt, elIso, elDxy, elEta, i)
  {
    if exists i :: 0 <= i < |muonPt| && TightMuon(tightId, muonPt, muonRelIso, muonEta, i) {
      var i :| 0 <= i < |muonPt| && TightMuon(tightId, muonPt, muonRelIso, muonEta, i);
      TightMuonStricter(tightId, muonPt, muonRelIso, muonEta, i);
    }
    if exists i :: 0 <= i < |elPt| && TightElectron(elIso, elPt, elEta, i) {
      var i :| 0 <= i < |elPt| && TightElectron(elIso, elPt, elEta, i);
      assert TTModules.TightElectron(elIso, elPt, elEta, i);
    }
    if exists i :: 0 <= i < |muonPt| && GoodMuon(muonPt, looseId, muonDxy, muonEta, i) {
      var i :| 0 <= i < |muonPt| && GoodMuon(muonPt, looseId, muonDxy, muonEta, i);
      assert TTModules.GoodMuon(muonPt, looseId, muonDxy, muonEta, i);
    }
    if exists i :: 0 <= i < |elPt| && GoodElectron(elPt, elIso, elDxy, elEta, i) {
      var i :| 0 <= i < |elPt| && GoodElectron(elPt, elIso, elDxy, elEta, i);
      assert TTModules.GoodElectron(elPt, elIso, elDxy, elEta, i);
    }
  }

  /** `getSF` of this module (and, identically, of TTmodules_original.cc): first pT bin [300, 400). */
  function GetSF(jetCat: int, pt: real, year: string, variation: int): (r: Option<real>)
    requires 300.0 <= pt < 1200.0 ==> 0 <= variation < 3
    ensures !(300.0 <= pt < 1200.0) ==> r == Some(1.0)
    ensures 300.0 <= pt < 1200.0 ==> (r.Some? <==> jetCat == 0 || jetCat == 1)
    ensures 300.0 <= pt < 400.0 && jetCat == 1 ==> r == Some(TopScaleFactors.TightTable(Eras.EraOf(year))[variation][0])
    ensures 300.0 <= pt < 400.0 && jetCat == 0 ==> r == Some(TopScaleFactors.LooseTable(Eras.EraOf(year))[variation][0])
    ensures 600.0 <= pt < 1200.0 && jetCat == 0 ==> r == Some(TopScaleFactors.LooseTable(Eras.EraOf(year))[variation][3])
  {
    TopScaleFactors.GetSF(jetCat, pt, year, variation, 300.0)
  }

  /** A jet candidate of `PickDijets`: pT > 350, |eta| < 2.4 and mass > 50. */
  function DijetCut(pt: seq<real>, eta: seq<real>, mass: seq<real>): int -> bool
    requires |eta| >= |pt| && |mass| >= |pt|
  {
    k => 0 <= k < |pt| && pt[k] > 350.0 && Abs(eta[k]) < 2.4 && mass[k] > 50.0
  }

  /** Two of the `n` jets back to back in phi: |DeltaPhi| > pi/2, for the given `deltaPhi`. */
  function BackToBack(phi: seq<real>, n: nat, deltaPhi: (real, real) -> real): (int, int) -> bool
    requires |phi| >= n
  {
    (a, b) => 0 <= a < n && 0 <= b < n && Abs(deltaPhi(phi[a], phi[b])) > Pi / 2.0
  }

  /** `PickDijets`: the first candidate jet and the first later candidate back to back with it. */
  method PickDijets(pt: seq<real>, eta: seq<real>, phi: seq<real>, mass: seq<real>, deltaPhi: (real, real) -> real)
    returns (out: seq<int>)
    requires |eta| >= |pt| && |phi| >= |pt| && |mass| >= |pt|
    ensures |out| == 2 && (out[0], out[1]) == FirstPair(|pt|, DijetCut(pt, eta, mass), BackToBack(phi, |pt|, deltaPhi))
  {
    var j0, j1 := PickFirstPair(|pt|, DijetCut(pt, eta, mass), BackToBack(phi, |pt|, deltaPhi));
    out := [j0, j1];
  }

  /** The picked pair in plain terms: both are candidates, back to back, and no earlier jet could
      have taken either slot. */
  lemma PickDijetsMeaning(pt: seq<real>, eta: seq<real>, phi: seq<real>, mass: seq<real>, deltaPhi: (real, real) -> real)
    requires |eta| == |pt| && |phi| == |pt| && |mass| == |pt|
    ensures var p := FirstPair(|pt|, DijetCut(pt, eta, mass), BackToBack(phi, |pt|, deltaPhi));
      (p.0 == -1 <==> forall k :: 0 <= k < |pt| ==> !DijetCut(pt, eta, mass)(k)) &&
      (p.0 != -1 ==> pt[p.0] > 350.0 && Abs(eta[p.0]) < 2.4 && mass[p.0] > 50.0) &&
      (p.1 != -1 ==> pt[p.1] > 350.0 && Abs(eta[p.1]) < 2.4 && mass[p.1] > 50.0 &&
                     Abs(deltaPhi(phi[p.0], phi[p.1])) > Pi / 2.0)
  {
    var p := FirstPair(|pt|, DijetCut(pt, eta, mass), BackToBack(phi, |pt|, deltaPhi));
    if p.0 != -1 {
      assert DijetCut(pt, eta, mass)(p.0);
      if p.1 != -1 {
        assert Partner(DijetCut(pt, eta, mass), BackToBack(phi, |pt|, deltaPhi), p.0)(p.1);
      }
    }
  }
}
