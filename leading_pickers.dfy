/** Leading-object pickers that the all-hadronic module (TTmodules.cc) and its predecessor
    (TTmodules_original.cc) share word for word. */
module LeadingPickers {
  import opened JetPicking

  /** `PickDiphotonsLeading`: the first index of the highest pT, then the first index of the
      highest pT among the other photons; both running maxima start at -1.  The kinematic columns
      feed only a diphoton mass and DeltaR that are not returned, so they are not parameters. */
  method PickDiphotonsLeading(pt: seq<real>) returns (out: seq<int>)
    ensures |out| == 2
    ensures out[0] == LeadIndex(pt, -1.0, AnyIndex(), |pt|)
    ensures out[1] == LeadIndex(pt, -1.0, OtherThan(out[0]), |pt|)
  {
    var ph1, pt1 := ScanLeading(pt, -1.0, AnyIndex());
    var ph2, pt2 := ScanLeading(pt, -1.0, OtherThan(ph1));
    out := [ph1, ph2];
  }

  /** What the two indices of `PickDiphotonsLeading` satisfy: no photons give {-1,-1}, one photon
      (with pT above -1) gives {0,-1}; a second index is never the first and never harder; and with
      at least two physical (pT >= 0) photons both slots are filled. */
  lemma {:induction false} DiphotonsLeadingShape(pt: seq<real>)
    ensures var i0 := LeadIndex(pt, -1.0, AnyIndex(), |pt|);
      var i1 := LeadIndex(pt, -1.0, OtherThan(i0), |pt|);
      (|pt| == 0 ==> i0 == -1 && i1 == -1) &&
      (|pt| == 1 && pt[0] > -1.0 ==> i0 == 0 && i1 == -1) &&
      (i0 == -1 ==> i1 == -1) &&
      (i1 != -1 ==> i1 != i0 && pt[i1] <= pt[i0]) &&
      ((|pt| >= 2 && forall k :: 0 <= k < |pt| ==> pt[k] >= 0.0) ==> i0 != -1 && i1 != -1)
  {
    var i0 := LeadIndex(pt, -1.0, AnyIndex(), |pt|);
    var i1 := LeadIndex(pt, -1.0, OtherThan(i0), |pt|);
    if i1 != -1 {
      assert OtherThan(i0)(i1);
      assert AnyIndex()(i1);
    }
    if |pt| == 1 && pt[0] > -1.0 {
      assert AnyIndex()(0);
      assert !OtherThan(0)(0);
    }
    if |pt| >= 2 && forall k :: 0 <= k < |pt| ==> pt[k] >= 0.0 {
      assert AnyIndex()(0);
      var other := if i0 == 0 then 1 else 0;
      assert OtherThan(i0)(other);
    }
  }

  /** `PickDiphotonsLeadingOrdered`: simply the first two photons, when there are two. */
  function PickDiphotonsLeadingOrdered(pt: seq<real>): (out: seq<int>)
    ensures |out| == 2
    ensures out[0] != -1 <==> |pt| > 1
    ensures out[0] != -1 ==> out == [0, 1]
    ensures out[0] == -1 ==> out[1] == -1
  {
    if |pt| > 1 then [0, 1] else [-1, -1]
  }

  /** `PickLeadingLepton`: {pT, eta, phi, mass} of electron 0, replaced by muon 0 when that one is
      strictly harder; {-1, -5, -5, -1} when the two counts sum to zero or less.  A muon competes
      against -1 when there is no electron. */
  function PickLeadingLepton(nElectron: int, nMuon: int, electronPt: seq<real>, muonPt: seq<real>,
                             electronEta: seq<real>, muonEta: seq<real>, electronPhi: seq<real>,
                             muonPhi: seq<real>, electronMass: seq<real>, muonMass: seq<real>): (out: seq<real>)
    requires nElectron + nMuon > 0 && nElectron > 0 ==>
               |electronPt| > 0 && |electronEta| > 0 && |electronPhi| > 0 && |electronMass| > 0
    requires nElectron + nMuon > 0 && nMuon > 0 ==>
               |muonPt| > 0 && |muonEta| > 0 && |muonPhi| > 0 && |muonMass| > 0
    ensures |out| == 4
    ensures nElectron + nMuon <= 0 ==> out == [-1.0, -5.0, -5.0, -1.0]
    ensures nElectron + nMuon > 0 ==>
      var electronLpt := if nElectron > 0 then electronPt[0] else -1.0;
      (nMuon > 0 && muonPt[0] > electronLpt ==> out == [muonPt[0], muonEta[0], muonPhi[0], muonMass[0]]) &&
      (!(nMuon > 0 && muonPt[0] > electronLpt) && nElectron > 0 ==>
         out == [electronPt[0], electronEta[0], electronPhi[0], electronMass[0]]) &&
      (!(nMuon > 0 && muonPt[0] > electronLpt) && nElectron <= 0 ==> out == [-1.0, -5.0, -5.0, -1.0])
  {
    var none := [-1.0, -5.0, -5.0, -1.0];
    if nElectron + nMuon > 0 then
      var lep := if nElectron > 0 then [electronPt[0], electronEta[0], electronPhi[0], electronMass[0]] else none;
      if nMuon > 0 && muonPt[0] > lep[0] then [muonPt[0], muonEta[0], muonPhi[0], muonMass[0]] else lep
    else none
  }

  /** Admissible in a flavour-restricted scan over the `n` jets: hadron flavour equal to (`same`)
      or different from (`!same`) the chosen one, and not the index `skip`. */
  function FlavourMatch(flavour: seq<real>, n: nat, choice: int, same: bool, skip: int): int -> bool
    requires |flavour| >= n
  {
    k => k != skip && 0 <= k < n && ((flavour[k] == choice as real) == same)
  }

  /** The column value at `idx`, or the default when the slot is empty. */
  function ValueOr(column: seq<real>, idx: int, default: real): real
    requires -1 <= idx < |column|
  {
    if idx == -1 then default else column[idx]
  }

  /** The output {pt0, pt1, eta0, eta1, phi0, phi1, mass0, mass1} of the two leading jets, with
      -1 (pT, mass) or -5 (eta, phi) in an empty slot. */
  function PairKinematics(pt: seq<real>, eta: seq<real>, phi: seq<real>, mass: seq<real>, id0: int, id1: int): (out: seq<real>)
    requires -1 <= id0 < |pt| && -1 <= id1 < |pt|
    requires |eta| >= |pt| && |phi| >= |pt| && |mass| >= |pt|
    ensures |out| == 8
  {
    [ValueOr(pt, id0, -1.0), ValueOr(pt, id1, -1.0), ValueOr(eta, id0, -5.0), ValueOr(eta, id1, -5.0),
     ValueOr(phi, id0, -5.0), ValueOr(phi, id1, -5.0), ValueOr(mass, id0, -1.0), ValueOr(mass, id1, -1.0)]
  }

  /** The two flavour-restricted leading jets: id0 is the first index of the highest pT among the
      admissible jets, id1 the same among the others, searched only when id0 was found. */
  ghost function LeadingFlavourIndices(pt: seq<real>, flavour: seq<real>, choice: int, same: bool): (ids: (int, int))
    requires |flavour| >= |pt|
    ensures -1 <= ids.0 < |pt| && -1 <= ids.1 < |pt|
    ensures ids.0 == -1 ==> ids.1 == -1
    ensures ids.1 != -1 ==> ids.1 != ids.0 && pt[ids.1] <= pt[ids.0]
  {
    var id0 := LeadIndex(pt, -1.0, FlavourMatch(flavour, |pt|, choice, same, -1), |pt|);
    if id0 == -1 then (-1, -1)
    else
      var id1 := LeadIndex(pt, -1.0, FlavourMatch(flavour, |pt|, choice, same, id0), |pt|);
      assert id1 != -1 ==> FlavourMatch(flavour, |pt|, choice, same, -1)(id1);
      (id0, id1)
  }

  /** The two scans of `PickLeadingQJets` / `PickLeadingDiJets`. */
  method LeadingFlavourPair(pt: seq<real>, eta: seq<real>, phi: seq<real>, mass: seq<real>,
                            flavour: seq<real>, choice: int, same: bool) returns (out: seq<real>)
    requires |eta| >= |pt| && |phi| >= |pt| && |mass| >= |pt| && |flavour| >= |pt|
    ensures var ids := LeadingFlavourIndices(pt, flavour, choice, same);
      out == PairKinematics(pt, eta, phi, mass, ids.0, ids.1)
  {
    var id0, qpt0 := ScanLeading(pt, -1.0, FlavourMatch(flavour, |pt|, choice, same, -1));
    var id1 := -1;
    if id0 >= 0 {
      var qpt1;
      id1, qpt1 := ScanLeading(pt, -1.0, FlavourMatch(flavour, |pt|, choice, same, id0));
    }
    out := PairKinematics(pt, eta, phi, mass, id0, id1);
  }

  /** `PickLeadingQJets`: the two leading jets whose hadron flavour equals the choice. */
  method PickLeadingQJets(pt: seq<real>, eta: seq<real>, phi: seq<real>, mass: seq<real>,
                          hadronFlavour: seq<real>, flavourChoice: int) returns (out: seq<real>)
    requires |eta| >= |pt| && |phi| >= |pt| && |mass| >= |pt| && |hadronFlavour| >= |pt|
    ensures var ids := LeadingFlavourIndices(pt, hadronFlavour, flavourChoice, true);
      out == PairKinematics(pt, eta, phi, mass, ids.0, ids.1)
  {
    out := LeadingFlavourPair(pt, eta, phi, mass, hadronFlavour, flavourChoice, true);
  }

  /** `PickLeadingDiJets`: the two leading jets whose hadron flavour differs from the choice. */
  method PickLeadingDiJets(pt: seq<real>, eta: seq<real>, phi: seq<real>, mass: seq<real>,
                           hadronFlavour: seq<real>, flavourChoice: int) returns (out: seq<real>)
    requires |eta| >= |pt| && |phi| >= |pt| && |mass| >= |pt| && |hadronFlavour| >= |pt|
    ensures var ids := LeadingFlavourIndices(pt, hadronFlavour, flavourChoice, false);
      out == PairKinematics(pt, eta, phi, mass, ids.0, ids.1)
  {
    out := LeadingFlavourPair(pt, eta, phi, mass, hadronFlavour, flavourChoice, false);
  }

  /** A jet of the chosen flavour never appears in the `PickLeadingDiJets` slots, and vice versa:
      the two pickers split the jets by flavour. */
  lemma FlavourSplit(pt: seq<real>, flavour: seq<real>, choice: int)
    requires |flavour| >= |pt|
    ensures var q := LeadingFlavourIndices(pt, flavour, choice, true);
      var d := LeadingFlavourIndices(pt, flavour, choice, false);
      (q.0 != -1 ==> q.0 != d.0 && q.0 != d.1) && (q.1 != -1 ==> q.1 != d.0 && q.1 != d.1)
  {
    var q := LeadingFlavourIndices(pt, flavour, choice, true);
    var d := LeadingFlavourIndices(pt, flavour, choice, false);
    if q.0 != -1 { assert FlavourMatch(flavour, |pt|, choice, true, -1)(q.0); }
    if q.1 != -1 { assert FlavourMatch(flavour, |pt|, choice, true, q.0)(q.1); }
    if d.0 != -1 { assert FlavourMatch(flavour, |pt|, choice, false, -1)(d.0); }
    if d.1 != -1 { assert FlavourMatch(flavour, |pt|, choice, false, d.0)(d.1); }
  }
}
