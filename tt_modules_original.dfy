/** The members of the earlier all-hadronic module (TTmodules_original.cc) that differ from the
    current one: the loosened dijet and jet-plus-photon cuts, and the leading-diphoton kinematics
    without the photon MVA ID.  Its vetoes are those of module TTModules, its `getSF` that of module
    THModules, and its migration, `PickTop*`, `PickTopGenMatch` and leading-object pickers the
    shared members of modules TopSelection and LeadingPickers. */
module OriginalTTModules {
  import opened Ieee
  import opened JetPicking
  import TTModules

  /** A jet candidate of `PickDijets`: pT > 15, |eta| < 3 and positive mass. */
  function DijetCut(pt: seq<real>, eta: seq<real>, mass: seq<real>): int -> bool
    requires |eta| >= |pt| && |mass| >= |pt|
  {
    k => 0 <= k < |pt| && pt[k] > 15.0 && Abs(eta[k]) < 3.0 && mass[k] > 0.0
  }

  /** Two of the `n` jets back to back in phi: |DeltaPhi| > pi/2, for the given `deltaPhi`. */
  function BackToBack(phi: seq<real>, n: nat, deltaPhi: (real, real) -> real): (int, int) -> bool
    requires |phi| >= n
  {
    (a, b) => 0 <= a < n && 0 <= b < n && Abs(deltaPhi(phi[a], phi[b])) > Pi / 2.0
  }

  /** `PickDijets`: the first candidate jet and the first later candidate back to back with it. */
  method PickDijets(pt: seq<real>, eta: seq<real>, phi: seq<real>, mass: seq<real>, deltaPhi: (real, real) -> real)
    returns (out: seq<int>)
    requires |eta| >= |pt| && |phi| >= |pt| && |mass| >= |pt|
    ensures |out| == 2 && (out[0], out[1]) == FirstPair(|pt|, DijetCut(pt, eta, mass), BackToBack(phi, |pt|, deltaPhi))
  {
    var j0, j1 := PickFirstPair(|pt|, DijetCut(pt, eta, mass), BackToBack(phi, |pt|, deltaPhi));
    out := [j0, j1];
  }

  /** With at least two jets passing the loose cuts and every pair back to back, the two slots are
      the first two candidates. */
  lemma PickDijetsFirstTwo(pt: seq<real>, eta: seq<real>, phi: seq<real>, mass: seq<real>, deltaPhi: (real, real) -> real,
                           a: nat, b: nat)
    requires |eta| == |pt| && |phi| == |pt| && |mass| == |pt| && a < b < |pt|
    requires DijetCut(pt, eta, mass)(a) && DijetCut(pt, eta, mass)(b)
    requires forall k :: 0 <= k < |pt| && k != a && k < b ==> !DijetCut(pt, eta, mass)(k)
    requires Abs(deltaPhi(phi[a], phi[b])) > Pi / 2.0
    ensures FirstPair(|pt|, DijetCut(pt, eta, mass), BackToBack(phi, |pt|, deltaPhi)) == (a, b)
  {
    FirstIndexUnique(|pt|, DijetCut(pt, eta, mass), 0, a);
    FirstIndexUnique(|pt|, Partner(DijetCut(pt, eta, mass), BackToBack(phi, |pt|, deltaPhi), a), a + 1, b);
  }

  /** `PickLeadingDiPhotons` of this module: {pt0, pt1, eta0, eta1, phi0, phi1, mass0, mass1} of
      photons 0 and 1, defaults -1 (pT, mass) and -5 (eta, phi). */
  function PickLeadingDiPhotons(pt: seq<real>, eta: seq<real>, phi: seq<real>, mass: seq<real>): (out: seq<real>)
    requires |eta| >= |pt| && |phi| >= |pt| && |mass| >= |pt|
    ensures |out| == 8
    ensures |pt| == 0 ==> out == [-1.0, -1.0, -5.0, -5.0, -5.0, -5.0, -1.0, -1.0]
    ensures |pt| > 0 ==> out[0] == pt[0] && out[2] == eta[0] && out[4] == phi[0] && out[6] == mass[0]
    ensures |pt| > 1 ==> out[1] == pt[1] && out[3] == eta[1] && out[5] == phi[1] && out[7] == mass[1]
    ensures |pt| <= 1 ==> out[1] == -1.0 && out[3] == -5.0 && out[5] == -5.0 && out[7] == -1.0
  {
    if |pt| > 0 then
      if |pt| > 1 then [pt[0], pt[1], eta[0], eta[1], phi[0], phi[1], mass[0], mass[1]]
      else [pt[0], -1.0, eta[0], -5.0, phi[0], -5.0, mass[0], -1.0]
    else [-1.0, -1.0, -5.0, -5.0, -5.0, -5.0, -1.0, -1.0]
  }

  /** The current module's version only appends the two MVA IDs. */
  lemma LeadingDiPhotonsExtended(pt: seq<real>, eta: seq<real>, phi: seq<real>, mass: seq<real>, mvaID: seq<real>)
    requires |eta| >= |pt| && |phi| >= |pt| && |mass| >= |pt| && |mvaID| >= |pt|
    ensures TTModules.PickLeadingDiPhotons(pt, eta, phi, mass, mvaID)[..8] == PickLeadingDiPhotons(pt, eta, phi, mass)
  {
  }

  /** A jet candidate of this module's `PickJetAnd2Gamma`: pT > 15, |eta| < 3 and positive mass. */
  function JetGammaCut(pt: seq<real>, eta: seq<real>, mass: seq<real>): int -> bool
    requires |eta| >= |pt| && |mass| >= |pt|
  {
    k => 0 <= k < |pt| && pt[k] > 15.0 && Abs(eta[k]) < 3.0 && mass[k] > 0.0
  }

  /** `PickJetAnd2Gamma`: {0,-1,-1} when jet 0 passes the loose cuts, {-1,-1,-1} otherwise. */
  method PickJetAnd2Gamma(pt: seq<real>, eta: seq<real>, mass: seq<real>) returns (out: seq<int>)
    requires |eta| >= |pt| && |mass| >= |pt|
    ensures out == if |pt| > 0 && pt[0] > 15.0 && Abs(eta[0]) < 3.0 && mass[0] > 0.0 then [0, -1, -1] else [-1, -1, -1]
  {
    out := JetPicking.PickJetAnd2Gamma(|pt|, JetGammaCut(pt, eta, mass));
  }
}
