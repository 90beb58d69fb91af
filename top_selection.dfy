/** Top-jet categorisation and the two-jet top/Higgs assignment shared, with identical code, by the
    all-hadronic module (TTmodules.cc), its predecessor (TTmodules_original.cc) and the
    semileptonic module (THmodules.cc).

    A jet's top category is 1 (tagged) or 0 (untagged).  Scale factors are applied with the
    jet-by-jet updating recipe ("method 2a" of the CMS b-tagging group): a tagged jet is demoted
    with probability 1 - SF when SF < 1, an untagged jet is promoted with probability
    (1 - SF) / (1 - 1/eff) when SF >= 1.  The random draw is an explicit input. */
module TopSelection {
  import opened Wrappers
  import opened Ieee
  import opened TopScaleFactors

  /** `getOriginalTopCat`: tagged iff the score is strictly above the working point. */
  function GetOriginalTopCat(tvsQCD: real, wp: real): (r: int)
    ensures r == 0 || r == 1
    ensures r == 1 <==> tvsQCD > wp
  {
    if tvsQCD > wp then 1 else 0
  }

  /** The promotion threshold (1 - SF) / (1 - 1/eff), evaluated with IEEE special values: the
      efficiency may be 0 or 1, where the C++ code divides by zero. */
  function PromotionThreshold(sf: real, eff: real): (f: Ext)
    ensures eff != 0.0 && eff != 1.0 ==> IsFinite(f) && Val(f) == (sf - 1.0) * eff / (1.0 - eff)
  {
    var den := Sub(Num(1.0), Div(Num(1.0), Num(eff)));
    var f := Div(Num(1.0 - sf), den);
    if eff != 0.0 && eff != 1.0 then
      assert IsFinite(den) && Val(den) == 1.0 - 1.0 / eff;
      PromotionThresholdValue(sf, eff);
      f
    else
      f
  }

  lemma PromotionThresholdValue(sf: real, eff: real)
    requires eff != 0.0 && eff != 1.0
    ensures 1.0 - 1.0 / eff != 0.0
    ensures (1.0 - sf) / (1.0 - 1.0 / eff) == (sf - 1.0) * eff / (1.0 - eff)
  {
    var d := 1.0 - 1.0 / eff;
    assert d * eff == eff - 1.0;
    assert d != 0.0;
    var q := (1.0 - sf) / d;
    assert q * d == 1.0 - sf;
    assert q * (eff - 1.0) == (1.0 - sf) * eff by {
      assert q * (eff - 1.0) == q * (d * eff) == (q * d) * eff;
    }
    assert q * (1.0 - eff) == (sf - 1.0) * eff;
  }

  /** `getNewTopCat`.  The `invert` flag is accepted and ignored, as in the C++ code. */
  function GetNewTopCat(sf: real, oldCat: int, eff: real, rand: real, invert: bool): (r: int)
    ensures (oldCat == 0 || oldCat == 1) ==> (r == 0 || r == 1)
    // below 1 the only move is a demotion 1 -> 0, taken iff rand < 1 - SF
    ensures sf < 1.0 ==> (r != oldCat <==> oldCat == 1 && rand < 1.0 - sf)
    ensures sf < 1.0 && r != oldCat ==> r == 0
    // from 1 upwards the only move is a promotion 0 -> 1, taken iff rand is below the threshold
    ensures sf >= 1.0 ==> (r != oldCat <==> oldCat == 0 && Lt(Num(rand), PromotionThreshold(sf, eff)))
    ensures sf >= 1.0 && r != oldCat ==> r == 1
  {
    if sf < 1.0 then
      (if oldCat == 1 && rand < 1.0 - sf then 0 else oldCat)
    else
      (if oldCat == 0 && Lt(Num(rand), PromotionThreshold(sf, eff)) then 1 else oldCat)
  }

  /** The flag `invert` has no effect on the migration. */
  lemma GetNewTopCatIgnoresInvert(sf: real, oldCat: int, eff: real, rand: real)
    ensures GetNewTopCat(sf, oldCat, eff, rand, true) == GetNewTopCat(sf, oldCat, eff, rand, false)
  {
  }

  /** A unit scale factor changes nothing, for any efficiency (including 0 and 1, where the
      threshold is a signed zero or NaN) and any non-negative draw. */
  lemma UnitScaleFactorKeepsCategory(oldCat: int, eff: real, rand: real, invert: bool)
    requires rand >= 0.0
    ensures GetNewTopCat(1.0, oldCat, eff, rand, invert) == oldCat
  {
    var f := PromotionThreshold(1.0, eff);
    if eff == 0.0 {
      assert Div(Num(1.0), Num(0.0)) == PosInf;
      assert Sub(Num(1.0), PosInf) == NegInf;
      assert f == NegZero;
    } else if eff == 1.0 {
      assert Sub(Num(1.0), Num(1.0)) == Num(0.0);
      assert f.NaN?;
    } else {
      assert Val(f) == 0.0;
    }
  }

  /** With an efficiency of exactly 1 the threshold is -inf (SF > 1) or NaN (SF = 1): no jet is
      ever promoted, whatever the draw. */
  lemma NoPromotionAtFullEfficiency(sf: real, rand: real, invert: bool)
    requires sf >= 1.0
    ensures GetNewTopCat(sf, 0, 1.0, rand, invert) == 0
  {
    assert Sub(Num(1.0), Div(Num(1.0), Num(1.0))) == Num(0.0);
    if sf > 1.0 {
      assert PromotionThreshold(sf, 1.0) == NegInf;
    } else {
      assert PromotionThreshold(sf, 1.0).NaN?;
    }
  }

  /** With an efficiency of 0 the threshold is a signed zero: no non-negative draw promotes. */
  lemma NoPromotionAtZeroEfficiency(sf: real, rand: real, invert: bool)
    requires sf >= 1.0 && rand >= 0.0
    ensures GetNewTopCat(sf, 0, 0.0, rand, invert) == 0
  {
    assert Sub(Num(1.0), Div(Num(1.0), Num(0.0))) == NegInf;
    assert IsZero(PromotionThreshold(sf, 0.0));
  }

  /** The probability that a uniform draw in [0, 1) lies below a threshold. */
  function BelowProbability(t: real): (p: real)
    ensures 0.0 <= p <= 1.0
    ensures 0.0 <= t <= 1.0 ==> p == t
  {
    if t < 0.0 then 0.0 else if t > 1.0 then 1.0 else t
  }

  /** The probability, over a uniform draw, that a jet ends up tagged, for a jet population of which
      a fraction `eff` was tagged before migration. */
  function TaggedAfterMigration(sf: real, eff: real): real
    requires 0.0 < eff < 1.0
  {
    if sf < 1.0 then eff * (1.0 - BelowProbability(1.0 - sf))
    else eff + (1.0 - eff) * BelowProbability(Val(PromotionThreshold(sf, eff)))
  }

  /** The point of the recipe: whenever the scale factor is attainable (0 <= SF*eff <= 1), the
      migrated tagging efficiency is exactly SF times the original one. */
  lemma MigrationScalesEfficiency(sf: real, eff: real)
    requires 0.0 < eff < 1.0 && 0.0 <= sf && sf * eff <= 1.0
    ensures TaggedAfterMigration(sf, eff) == sf * eff
  {
    if sf >= 1.0 {
      PromotionFractionInUnit(sf, eff);
    } else {
      assert BelowProbability(1.0 - sf) == 1.0 - sf;
    }
  }

  lemma PromotionFractionInUnit(sf: real, eff: real)
    requires 0.0 < eff < 1.0 && 1.0 <= sf && sf * eff <= 1.0
    ensures var f := (sf - 1.0) * eff / (1.0 - eff);
      0.0 <= f <= 1.0 && eff + (1.0 - eff) * f == sf * eff
  {
    var z := 1.0 - eff;
    var n := (sf - 1.0) * eff;
    var f := n / z;
    assert f * z == n;
    assert 0.0 <= n <= z;
  }

  /** A smaller draw migrates whenever a larger one does: the rule is a threshold on the draw. */
  lemma MigrationMonotoneInDraw(sf: real, oldCat: int, eff: real, rand1: real, rand2: real, invert: bool)
    requires rand1 <= rand2
    requires GetNewTopCat(sf, oldCat, eff, rand2, invert) != oldCat
    ensures GetNewTopCat(sf, oldCat, eff, rand1, invert) == GetNewTopCat(sf, oldCat, eff, rand2, invert)
  {
    if sf >= 1.0 {
      LtDownward(rand1, rand2, PromotionThreshold(sf, eff));
    }
  }

  /** The ordering rule every two-jet selector follows.  `lead0` says whether jet idx0 should lead
      when both pass.  Nothing passes: {-1,-1}.  Otherwise the output is a permutation of
      {idx0, idx1} led by a jet that passed, and when both pass and differ, idx0 leads iff `lead0`. */
  predicate OrderedPick(out: seq<int>, idx0: int, idx1: int, pass0: bool, pass1: bool, lead0: bool)
  {
    |out| == 2 &&
    (!pass0 && !pass1 ==> out == [-1, -1]) &&
    (pass0 || pass1 ==>
       multiset(out) == multiset{idx0, idx1} &&
       ((out[0] == idx0 && pass0) || (out[0] == idx1 && pass1))) &&
    (pass0 && pass1 && idx0 != idx1 ==> (out[0] == idx0 <==> lead0))
  }

  /** The if/else-if cascade at the end of each selector. */
  function OrderTops(pass0: bool, pass1: bool, lead0: bool, idx0: int, idx1: int): (out: seq<int>)
    ensures OrderedPick(out, idx0, idx1, pass0, pass1, lead0)
  {
    if pass0 && pass1 then (if lead0 then [idx0, idx1] else [idx1, idx0])
    else if pass0 then [idx0, idx1]
    else if pass1 then [idx1, idx0]
    else [-1, -1]
  }

  /** Both candidate indices address every per-jet column. */
  predicate PairInRange(idxs: seq<int>, n: nat)
  {
    |idxs| >= 2 && 0 <= idxs[0] < n && 0 <= idxs[1] < n
  }

  /** Signal-region top tag: mass strictly inside the window and score above the working point. */
  predicate WindowTag(mass: real, score: real, massLo: real, massHi: real, wp: real)
  {
    massLo < mass < massHi && score > wp
  }

  /** Inverted (anti-)tag: loose but not tight, 0.2 < score < WP. */
  predicate AntiTag(score: real, wp: real)
  {
    score < wp && 0.2 < score
  }

  /** `PickTop`: the mass window and score cut, or the anti-tag when `invert`; both passing jets
      are ordered by score, ties putting idx1 first. */
  function PickTop(mass: seq<real>, tagScore: seq<real>, idxs: seq<int>, massLo: real, massHi: real,
                   scoreCut: real, invert: bool): (out: seq<int>)
    requires |mass| == |tagScore| && PairInRange(idxs, |mass|)
    ensures var i0, i1 := idxs[0], idxs[1];
      OrderedPick(out, i0, i1,
        if !invert then WindowTag(mass[i0], tagScore[i0], massLo, massHi, scoreCut) else AntiTag(tagScore[i0], scoreCut),
        if !invert then WindowTag(mass[i1], tagScore[i1], massLo, massHi, scoreCut) else AntiTag(tagScore[i1], scoreCut),
        tagScore[i0] > tagScore[i1])
  {
    var i0, i1 := idxs[0], idxs[1];
    var pass0 := if !invert then WindowTag(mass[i0], tagScore[i0], massLo, massHi, scoreCut) else AntiTag(tagScore[i0], scoreCut);
    var pass1 := if !invert then WindowTag(mass[i1], tagScore[i1], massLo, massHi, scoreCut) else AntiTag(tagScore[i1], scoreCut);
    OrderTops(pass0, pass1, tagScore[i0] > tagScore[i1], i0, i1)
  }

  /** `PickTopCRv2`: as `PickTop`, but the inverted selection also vetoes Higgs-like jets
      (Higgs score below 0.2). */
  function PickTopCRv2(mass: seq<real>, tagScore: seq<real>, higgsScore: seq<real>, idxs: seq<int>,
                       massLo: real, massHi: real, scoreCut: real, invert: bool): (out: seq<int>)
    requires |mass| == |tagScore| == |higgsScore| && PairInRange(idxs, |mass|)
    ensures var i0, i1 := idxs[0], idxs[1];
      OrderedPick(out, i0, i1,
        if !invert then WindowTag(mass[i0], tagScore[i0], massLo, massHi, scoreCut)
        else AntiTag(tagScore[i0], scoreCut) && higgsScore[i0] < 0.2,
        if !invert then WindowTag(mass[i1], tagScore[i1], massLo, massHi, scoreCut)
        else AntiTag(tagScore[i1], scoreCut) && higgsScore[i1] < 0.2,
        tagScore[i0] > tagScore[i1])
  {
    var i0, i1 := idxs[0], idxs[1];
    var pass0 := if !invert then WindowTag(mass[i0], tagScore[i0], massLo, massHi, scoreCut)
                 else AntiTag(tagScore[i0], scoreCut) && higgsScore[i0] < 0.2;
    var pass1 := if !invert then WindowTag(mass[i1], tagScore[i1], massLo, massHi, scoreCut)
                 else AntiTag(tagScore[i1], scoreCut) && higgsScore[i1] < 0.2;
    OrderTops(pass0, pass1, tagScore[i0] > tagScore[i1], i0, i1)
  }

  /** A signal-region pick and a control-region pick of the same event never share a leading jet
      with the same score cut: the tag and the anti-tag exclude each other. */
  lemma SignalAndControlLeadersDiffer(mass: seq<real>, tagScore: seq<real>, higgsScore: seq<real>, idxs: seq<int>,
                                      massLo: real, massHi: real, scoreCut: real)
    requires |mass| == |tagScore| == |higgsScore| && PairInRange(idxs, |mass|)
    requires PickTopCRv2(mass, tagScore, higgsScore, idxs, massLo, massHi, scoreCut, false)[0] != -1
    requires PickTopCRv2(mass, tagScore, higgsScore, idxs, massLo, massHi, scoreCut, true)[0] != -1
    ensures PickTopCRv2(mass, tagScore, higgsScore, idxs, massLo, massHi, scoreCut, false)[0]
         != PickTopCRv2(mass, tagScore, higgsScore, idxs, massLo, massHi, scoreCut, true)[0]
  {
    var i0, i1 := idxs[0], idxs[1];
    var s := PickTopCRv2(mass, tagScore, higgsScore, idxs, massLo, massHi, scoreCut, false);
    var c := PickTopCRv2(mass, tagScore, higgsScore, idxs, massLo, massHi, scoreCut, true);
    assert s[0] == i0 ==> WindowTag(mass[i0], tagScore[i0], massLo, massHi, scoreCut);
    assert c[0] == i0 ==> AntiTag(tagScore[i0], scoreCut);
    assert s[0] == i1 ==> WindowTag(mass[i1], tagScore[i1], massLo, massHi, scoreCut);
    assert c[0] == i1 ==> AntiTag(tagScore[i1], scoreCut);
  }

  /** The category of one jet after scale-factor migration, as computed inside `PickTopWithSFs`:
      the original category, the scale factor for it (`low` is the file's first pT edge) and the
      migration with this jet's draw. */
  function MigratedTopCat(tvsQCD: real, pt: real, wp: real, eff: real, year: string, variation: int,
                          low: real, rand: real, invert: bool): (r: int)
    requires low <= 400.0
    requires PtCat(pt, low).Some? ==> 0 <= variation < 3
    ensures r == 0 || r == 1
    // outside the binned pT range the scale factor is 1 and a non-negative draw changes nothing
    ensures PtCat(pt, low).None? && rand >= 0.0 ==> r == GetOriginalTopCat(tvsQCD, wp)
  {
    var orig := GetOriginalTopCat(tvsQCD, wp);
    GetSFDefined(orig, pt, year, variation, low);
    var sf := GetSF(orig, pt, year, variation, low).value;
    if PtCat(pt, low).None? && rand >= 0.0 then
      UnitScaleFactorKeepsCategory(orig, eff, rand, invert);
      GetNewTopCat(sf, orig, eff, rand, invert)
    else
      GetNewTopCat(sf, orig, eff, rand, invert)
  }

  /** `PickTopWithSFs`: jets are tops after migration (category 1), or in the inverted selection
      untagged after migration with a Higgs score below 0.2; both-top events are ordered by the raw
      score.  `rand0` and `rand1` are the two draws, in that order. */
  function PickTopWithSFs(tvsQCD: seq<real>, hbbvsQCD: seq<real>, pt: seq<real>, idxs: seq<int>, scoreCut: real,
                          eff0: real, eff1: real, year: string, variation: int, invert: bool,
                          low: real, rand0: real, rand1: real): (out: seq<int>)
    requires |tvsQCD| == |hbbvsQCD| == |pt| && PairInRange(idxs, |pt|) && low <= 400.0
    requires PtCat(pt[idxs[0]], low).Some? || PtCat(pt[idxs[1]], low).Some? ==> 0 <= variation < 3
    ensures var i0, i1 := idxs[0], idxs[1];
      var c0 := MigratedTopCat(tvsQCD[i0], pt[i0], scoreCut, eff0, year, variation, low, rand0, invert);
      var c1 := MigratedTopCat(tvsQCD[i1], pt[i1], scoreCut, eff1, year, variation, low, rand1, invert);
      OrderedPick(out, i0, i1,
        if !invert then c0 == 1 else c0 == 0 && hbbvsQCD[i0] < 0.2,
        if !invert then c1 == 1 else c1 == 0 && hbbvsQCD[i1] < 0.2,
        tvsQCD[i0] > tvsQCD[i1])
  {
    var i0, i1 := idxs[0], idxs[1];
    var c0 := MigratedTopCat(tvsQCD[i0], pt[i0], scoreCut, eff0, year, variation, low, rand0, invert);
    var c1 := MigratedTopCat(tvsQCD[i1], pt[i1], scoreCut, eff1, year, variation, low, rand1, invert);
    var pass0 := if !invert then c0 == 1 else c0 == 0 && hbbvsQCD[i0] < 0.2;
    var pass1 := if !invert then c1 == 1 else c1 == 0 && hbbvsQCD[i1] < 0.2;
    OrderTops(pass0, pass1, tvsQCD[i0] > tvsQCD[i1], i0, i1)
  }

  /** Outside the scale-factor bins (and with non-negative draws) the signal selection with scale
      factors picks exactly what a plain score cut would. */
  lemma PickTopWithSFsOutsideBins(tvsQCD: seq<real>, hbbvsQCD: seq<real>, pt: seq<real>, idxs: seq<int>, scoreCut: real,
                                  eff0: real, eff1: real, year: string, variation: int,
                                  low: real, rand0: real, rand1: real)
    requires |tvsQCD| == |hbbvsQCD| == |pt| && PairInRange(idxs, |pt|) && low <= 400.0
    requires PtCat(pt[idxs[0]], low).None? && PtCat(pt[idxs[1]], low).None?
    requires rand0 >= 0.0 && rand1 >= 0.0
    ensures PickTopWithSFs(tvsQCD, hbbvsQCD, pt, idxs, scoreCut, eff0, eff1, year, variation, false, low, rand0, rand1)
         == OrderTops(tvsQCD[idxs[0]] > scoreCut, tvsQCD[idxs[1]] > scoreCut, tvsQCD[idxs[0]] > tvsQCD[idxs[1]], idxs[0], idxs[1])
  {
  }

  /** A gen-level particle of type `pdgId` (either charge) lies within DeltaR < 0.8 of the jet. */
  ghost predicate MatchesGen<V>(pdgId: int, jet: V, gen: seq<V>, genPdgId: seq<int>, deltaR: (V, V) -> real)
    requires |genPdgId| >= |gen|
  {
    exists i :: 0 <= i < |gen| && IntAbs(genPdgId[i]) == pdgId && deltaR(jet, gen[i]) < 0.8
  }

  function IntAbs(x: int): (r: int)
    ensures r >= 0 && (r == x || r == -x)
  {
    if x < 0 then -x else x
  }

  /** `MatchToGen`: a linear search that stops at the first matching gen particle.  `deltaR` stands
      for `hardware::DeltaR`. */
  method MatchToGen<V>(pdgId: int, jet: V, gen: seq<V>, genPdgId: seq<int>, deltaR: (V, V) -> real)
    returns (found: bool)
    requires |genPdgId| >= |gen|
    ensures found <==> MatchesGen(pdgId, jet, gen, genPdgId, deltaR)
  {
    found := false;
    var i := 0;
    while i < |gen|
      invariant 0 <= i <= |gen|
      invariant forall k :: 0 <= k < i ==> !(IntAbs(genPdgId[k]) == pdgId && deltaR(jet, gen[k]) < 0.8)
    {
      if IntAbs(genPdgId[i]) == pdgId {
        if deltaR(jet, gen[i]) < 0.8 {
          found := true;
          break;
        }
      }
      i := i + 1;
    }
  }

  /** `PickTopGenMatch`: over the two leading jets, the last one matched to a top quark (pdgId 6)
      is the top and the last one matched to a Higgs boson (25) but not to a top is the Higgs. */
  method PickTopGenMatch<V>(dijet: seq<V>, gen: seq<V>, genPdgId: seq<int>, deltaR: (V, V) -> real)
    returns (tIdx: int, hIdx: int)
    requires |dijet| >= 2 && |genPdgId| >= |gen|
    ensures tIdx == (if MatchesGen(6, dijet[1], gen, genPdgId, deltaR) then 1
                     else if MatchesGen(6, dijet[0], gen, genPdgId, deltaR) then 0 else -1)
    ensures hIdx == (if !MatchesGen(6, dijet[1], gen, genPdgId, deltaR) && MatchesGen(25, dijet[1], gen, genPdgId, deltaR) then 1
                     else if !MatchesGen(6, dijet[0], gen, genPdgId, deltaR) && MatchesGen(25, dijet[0], gen, genPdgId, deltaR) then 0
                     else -1)
    // the two roles never go to the same jet, and a top-matched jet is never the Higgs
    ensures -1 <= tIdx <= 1 && -1 <= hIdx <= 1
    ensures tIdx == hIdx ==> tIdx == -1
    ensures 0 <= hIdx ==> !MatchesGen(6, dijet[hIdx], gen, genPdgId, deltaR)
  {
    tIdx, hIdx := -1, -1;
    var ijet := 0;
    while ijet < 2
      invariant 0 <= ijet <= 2
      invariant tIdx == (if ijet > 1 && MatchesGen(6, dijet[1], gen, genPdgId, deltaR) then 1
                         else if ijet > 0 && MatchesGen(6, dijet[0], gen, genPdgId, deltaR) then 0 else -1)
      invariant hIdx == (if ijet > 1 && !MatchesGen(6, dijet[1], gen, genPdgId, deltaR) && MatchesGen(25, dijet[1], gen, genPdgId, deltaR) then 1
                         else if ijet > 0 && !MatchesGen(6, dijet[0], gen, genPdgId, deltaR) && MatchesGen(25, dijet[0], gen, genPdgId, deltaR) then 0
                         else -1)
    {
      var isTop := MatchToGen(6, dijet[ijet], gen, genPdgId, deltaR);
      if isTop {
        tIdx := ijet;
      } else {
        var isHiggs := MatchToGen(25, dijet[ijet], gen, genPdgId, deltaR);
        if isHiggs {
          hIdx := ijet;
        }
      }
      ijet := ijet + 1;
    }
  }
}
