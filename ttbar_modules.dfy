/** The per-event functions of the ttbar control-region module (ttbarmodules.cc): the lepton and
    back-to-back jet picker `PickDijetsV2`, the two-dimensional lepton isolation cut `TwoDCut`,
    the per-lepton property lookup and the mother-PDG-ID gather. */
module TtbarModules {
  import opened Ieee
  import opened JetPicking

  /** The lepton part of `PickDijetsV2`: `id` is 1 (electron), 2 (muon) or -1 (none); `ptInt` is
      the int-typed `Leptonpt`, which only the single-flavour branches assign; `electron` and `muon`
      are the reported indices. */
  datatype LeptonChoice = LeptonChoice(id: int, ptInt: int, electron: int, muon: int)

  /** A lepton above the 50 GeV threshold. */
  function Above50(pt: seq<real>): int -> bool
  {
    k => 0 <= k < |pt| && pt[k] > 50.0
  }

  /** In the both-flavour branch, electron `e` and muon `m` decide the event when the harder of the
      two is strictly harder than the other and above 50 GeV. */
  function Decides(elPt: seq<real>, muPt: seq<real>): (int, int) -> bool
  {
    (e, m) => 0 <= e < |elPt| && 0 <= m < |muPt| &&
      ((elPt[e] > muPt[m] && elPt[e] > 50.0) || (muPt[m] > elPt[e] && muPt[m] > 50.0))
  }

  const NoLepton := LeptonChoice(-1, 0, -1, -1)

  /** The lepton selection of `PickDijetsV2`.  With one flavour only, the first lepton of that
      flavour above 50 GeV is taken and its pT truncated into `Leptonpt`; with both, the first
      (electron, muon) pair in loop order in which one is strictly harder and above 50 GeV decides,
      both indices are reported and `Leptonpt` stays 0. */
  function ChooseLepton(elPt: seq<real>, muPt: seq<real>): (c: LeptonChoice)
    ensures c.id == -1 || c.id == 1 || c.id == 2
    ensures c.id == -1 <==> c == NoLepton
    // only muons
    ensures |elPt| == 0 && |muPt| > 0 ==> (c.id == 2 <==> exists k :: 0 <= k < |muPt| && muPt[k] > 50.0)
    ensures |elPt| == 0 && c.id == 2 ==> c.electron == -1 && 0 <= c.muon < |muPt| && c.ptInt == Trunc(muPt[c.muon])
    // only electrons
    ensures |elPt| > 0 && |muPt| == 0 ==> (c.id == 1 <==> exists k :: 0 <= k < |elPt| && elPt[k] > 50.0)
    ensures |muPt| == 0 && c.id == 1 ==> c.muon == -1 && 0 <= c.electron < |elPt| && c.ptInt == Trunc(elPt[c.electron])
    // both flavours
    ensures |elPt| > 0 && |muPt| > 0 ==> c.ptInt == 0
    ensures |elPt| > 0 && |muPt| > 0 && c.id != -1 ==>
      0 <= c.electron < |elPt| && 0 <= c.muon < |muPt| &&
      (c.id == 1 ==> elPt[c.electron] > muPt[c.muon] && elPt[c.electron] > 50.0) &&
      (c.id == 2 ==> muPt[c.muon] > elPt[c.electron] && muPt[c.muon] > 50.0)
    ensures |elPt| > 0 && |muPt| > 0 ==>
      (c.id == -1 <==> forall e, m :: 0 <= e < |elPt| && 0 <= m < |muPt| ==> !Decides(elPt, muPt)(e, m))
  {
    assert forall k :: Above50(muPt)(k) == (0 <= k < |muPt| && muPt[k] > 50.0);
    assert forall k :: Above50(elPt)(k) == (0 <= k < |elPt| && elPt[k] > 50.0);
    if |elPt| < 1 then
      if |muPt| < 1 then NoLepton
      else
        var m := FirstIndex(|muPt|, Above50(muPt), 0);
        if m == -1 then NoLepton else LeptonChoice(2, Trunc(muPt[m]), -1, m)
    else if |muPt| < 1 then
      var e := FirstIndex(|elPt|, Above50(elPt), 0);
      if e == -1 then NoLepton else LeptonChoice(1, Trunc(elPt[e]), e, -1)
    else
      var p := FirstLexPair(|elPt|, |muPt|, Decides(elPt, muPt));
      if p.0 == -1 then NoLepton
      else LeptonChoice(if elPt[p.0] > muPt[p.1] then 1 else 2, 0, p.0, p.1)
  }

  /** An electron and a muon of equal pT never decide the event. */
  lemma EqualPtDecidesNothing(elPt: seq<real>, muPt: seq<real>, e: int, m: int)
    requires 0 <= e < |elPt| && 0 <= m < |muPt| && elPt[e] == muPt[m]
    ensures !Decides(elPt, muPt)(e, m)
  {
  }

  /** The jet pair of `PickDijetsV2`: AK4 jet `j` (outer loop) and AK8 jet `f` (inner loop) are
      back to back in phi and the AK4 jet is b-tagged (> 0.8). */
  function JetPairOk(fatPhi: seq<real>, jetPhi: seq<real>, btag: seq<real>, deltaPhi: (real, real) -> real): (int, int) -> bool
    requires |btag| >= |jetPhi|
  {
    (j, f) => 0 <= j < |jetPhi| && 0 <= f < |fatPhi| &&
      Abs(deltaPhi(fatPhi[f], jetPhi[j])) > Pi / 2.0 && btag[j] > 0.8
  }

  /** The result of `PickDijetsV2`: {FatJetidx, Jetidx, Leptonidx, C_Lepton_pt, Electronidx,
      Muonidx}.  The jets are searched only once a lepton is chosen; C_Lepton_pt is 1 iff the
      int-truncated `Leptonpt` exceeds 50. */
  function DijetsV2(fatPhi: seq<real>, jetPhi: seq<real>, elPt: seq<real>, muPt: seq<real>, btag: seq<real>,
                    deltaPhi: (real, real) -> real): (out: seq<int>)
    requires |btag| >= |jetPhi|
    ensures |out| == 6
    ensures out[2] == -1 || out[2] == 1 || out[2] == 2
    ensures out[2] == -1 ==> out == [-1, -1, -1, -1, -1, -1]
    ensures out[0] == -1 <==> out[1] == -1
    ensures out[1] != -1 ==>
      (out[2] != -1 && 0 <= out[0] < |fatPhi| && 0 <= out[1] < |jetPhi| &&
       JetPairOk(fatPhi, jetPhi, btag, deltaPhi)(out[1], out[0]))
    ensures out[2] != -1 && out[1] == -1 ==>
      forall j, f :: 0 <= j < |jetPhi| && 0 <= f < |fatPhi| ==> !JetPairOk(fatPhi, jetPhi, btag, deltaPhi)(j, f)
    ensures out[3] == 1 || out[3] == -1
    ensures |elPt| > 0 && |muPt| > 0 ==> out[3] == -1
  {
    var lep := ChooseLepton(elPt, muPt);
    var jets := if lep.id == -1 then (-1, -1) else FirstLexPair(|jetPhi|, |fatPhi|, JetPairOk(fatPhi, jetPhi, btag, deltaPhi));
    [jets.1, jets.0, lep.id, if lep.ptInt > 50 then 1 else -1, lep.electron, lep.muon]
  }

  /** The lepton cut C_Lepton_pt misses a selected single-flavour lepton whose pT lies in (50, 51),
      because `Leptonpt` is an int. */
  lemma LeptonPtCutTruncates(fatPhi: seq<real>, jetPhi: seq<real>, btag: seq<real>, deltaPhi: (real, real) -> real)
    requires |btag| >= |jetPhi|
    ensures var out := DijetsV2(fatPhi, jetPhi, [], [50.5], btag, deltaPhi);
      out[2] == 2 && out[5] == 0 && out[3] == -1
  {
    var muPt := [50.5];
    assert Above50(muPt)(0);
    assert Trunc(50.5) == 50;
  }

  /** `PickDijetsV2`, with the loops of the source: a first-above-threshold scan for the single
      flavour cases, the flagged nested (electron, muon) scan for the two-flavour case, and the
      flagged nested (jet, fat jet) scan once a lepton is found. */
  method PickDijetsV2(fatPhi: seq<real>, jetPhi: seq<real>, elPt: seq<real>, muPt: seq<real>, btag: seq<real>,
                      deltaPhi: (real, real) -> real) returns (out: seq<int>)
    requires |btag| >= |jetPhi|
    ensures out == DijetsV2(fatPhi, jetPhi, elPt, muPt, btag, deltaPhi)
  {
    var leptonId, leptonPt, electronIdx, muonIdx := -1, 0, -1, -1;
    if |elPt| < 1 {
      if |muPt| >= 1 {
        var m := ScanFirst(|muPt|, Above50(muPt));
        if m != -1 {
          muonIdx, leptonId, leptonPt := m, 2, Trunc(muPt[m]);
        }
      }
    } else if |muPt| < 1 {
      var e := ScanFirst(|elPt|, Above50(elPt));
      if e != -1 {
        electronIdx, leptonId, leptonPt := e, 1, Trunc(elPt[e]);
      }
    } else {
      var e, m := ScanPairs(|elPt|, |muPt|, Decides(elPt, muPt));
      if e != -1 {
        electronIdx, muonIdx := e, m;
        leptonId := if elPt[e] > muPt[m] then 1 else 2;
      }
    }
    var jetIdx, fatJetIdx := -1, -1;
    if leptonId != -1 {
      jetIdx, fatJetIdx := ScanPairs(|jetPhi|, |fatPhi|, JetPairOk(fatPhi, jetPhi, btag, deltaPhi));
    }
    var cLeptonPt := if leptonPt > 50 then 1 else -1;
    out := [fatJetIdx, jetIdx, leptonId, cLeptonPt, electronIdx, muonIdx];
  }

  /** `TwoDCut`: {Crel_pt, Crel_phi} for the chosen lepton; each is 1 when the lepton's
      `jetPtRelv2` exceeds 25, respectively its DeltaPhi to the b jet exceeds 0.4 in magnitude,
      and -1 otherwise or when no lepton is chosen. */
  function TwoDCut(leptonId: int, electronId: int, muonId: int, elPtRel: seq<real>, muPtRel: seq<real>,
                   bJetPhi: real, elPhi: seq<real>, muPhi: seq<real>, deltaPhi: (real, real) -> real): (out: seq<int>)
    requires leptonId == 1 ==> 0 <= electronId < |elPtRel| && electronId < |elPhi|
    requires leptonId == 2 ==> 0 <= muonId < |muPtRel| && muonId < |muPhi|
    ensures |out| == 2 && (out[0] == 1 || out[0] == -1) && (out[1] == 1 || out[1] == -1)
    ensures leptonId != 1 && leptonId != 2 ==> out == [-1, -1]
    ensures leptonId == 1 ==> (out[0] == 1 <==> elPtRel[electronId] > 25.0)
    ensures leptonId == 1 ==> (out[1] == 1 <==> Abs(deltaPhi(elPhi[electronId], bJetPhi)) > 0.4)
    ensures leptonId == 2 ==> (out[0] == 1 <==> muPtRel[muonId] > 25.0)
    ensures leptonId == 2 ==> (out[1] == 1 <==> Abs(deltaPhi(muPhi[muonId], bJetPhi)) > 0.4)
  {
    if leptonId == 1 then
      [if elPtRel[electronId] > 25.0 then 1 else -1, if Abs(deltaPhi(elPhi[electronId], bJetPhi)) > 0.4 then 1 else -1]
    else if leptonId == 2 then
      [if muPtRel[muonId] > 25.0 then 1 else -1, if Abs(deltaPhi(muPhi[muonId], bJetPhi)) > 0.4 then 1 else -1]
    else [-1, -1]
  }

  /** `GetFloatLeptonProperty`: the electron's value for lepton id 1, the muon's for 2, else -1. */
  function GetFloatLeptonProperty(leptonId: int, electronId: int, muonId: int,
                                  electronProperty: seq<real>, muonProperty: seq<real>): (r: real)
    requires leptonId == 1 ==> 0 <= electronId < |electronProperty|
    requires leptonId == 2 ==> 0 <= muonId < |muonProperty|
    ensures leptonId == 1 ==> r == electronProperty[electronId]
    ensures leptonId == 2 ==> r == muonProperty[muonId]
    ensures leptonId != 1 && leptonId != 2 ==> r == -1.0
  {
    if leptonId == 1 then electronProperty[electronId]
    else if leptonId == 2 then muonProperty[muonId]
    else -1.0
  }

  /** The lepton property lookup agrees with the choice made by `PickDijetsV2`: for the chosen
      lepton it reads the pT that was compared against the 50 GeV threshold. */
  lemma LeptonPropertyOfChoice(elPt: seq<real>, muPt: seq<real>)
    requires ChooseLepton(elPt, muPt).id != -1
    requires |elPt| == 0 || |muPt| == 0
    ensures var c := ChooseLepton(elPt, muPt);
      GetFloatLeptonProperty(c.id, c.electron, c.muon, elPt, muPt) > 50.0
  {
    var c := ChooseLepton(elPt, muPt);
    if |elPt| == 0 {
      assert c.id == 2 && Above50(muPt)(c.muon);
    } else {
      assert c.id == 1 && Above50(elPt)(c.electron);
    }
  }

  /** `FindMothersPdgId`: the PDG ID of each listed mother, in list order.  Every index must be in
      range, since the source does not check them. */
  method FindMothersPdgId(genpartId: seq<int>, motherIdx: seq<int>) returns (out: seq<int>)
    requires forall i :: 0 <= i < |motherIdx| ==> 0 <= motherIdx[i] < |genpartId|
    ensures |out| == |motherIdx|
    ensures forall i :: 0 <= i < |motherIdx| ==> out[i] == genpartId[motherIdx[i]]
  {
    var a := new int[|motherIdx|];
    for i := 0 to |motherIdx|
      invariant forall k :: 0 <= k < i ==> a[k] == genpartId[motherIdx[k]]
    {
      a[i] := genpartId[motherIdx[i]];
    }
    out := a[..];
  }
}
