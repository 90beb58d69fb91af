/** The ParticleNet top-tagging scale-factor handler (class `PNetTopSFHandler`): it migrates the
    two candidate jets of an event, at fixed indices, between fail (0) and pass (1), and counts
    the original and the new categories of each candidate separately. */
module TopSF {
  import opened Wrappers
  import opened Ieee
  import opened CSwitch
  import opened Eras
  import TopScaleFactors
  import TopSelection

  /** The handler's `getSF`: 1.0 outside [300, 1200); inside, the `switch` on the original
      category has no `break`, so a failing jet runs on into the passing arm and both read the
      tight table; any other category leaves the result uninitialised (None). */
  function GetSF(jetCat: int, pt: real, year: string, variation: int): (r: Option<real>)
    requires TopScaleFactors.PtCat(pt, 300.0).Some? ==> 0 <= variation < 3
    ensures TopScaleFactors.PtCat(pt, 300.0).None? ==> r == Some(1.0)
    ensures TopScaleFactors.PtCat(pt, 300.0).Some? ==> (r.Some? <==> jetCat == 0 || jetCat == 1)
    ensures TopScaleFactors.PtCat(pt, 300.0).Some? && r.Some? ==>
              r.value == TopScaleFactors.TightTable(EraOf(year))[variation][TopScaleFactors.PtCat(pt, 300.0).value]
  {
    match TopScaleFactors.PtCat(pt, 300.0)
    case None => Some(1.0)
    case Some(k) =>
      var e := EraOf(year);
      FallThrough(jetCat, [TopScaleFactors.LooseTable(e)[variation][k], TopScaleFactors.TightTable(e)[variation][k]])
  }

  /** Against the per-event modules' `getSF` (which breaks after each case): the same factor for
      a passing jet, and for a failing jet the factor those modules give a passing one. */
  lemma HandlerReadsTightForFailing(jetCat: int, pt: real, year: string, variation: int)
    requires (jetCat == 0 || jetCat == 1) && 0 <= variation < 3
    ensures GetSF(jetCat, pt, year, variation) == TopScaleFactors.GetSF(1, pt, year, variation, 300.0)
  {
  }

  /** `getNewCat` as written: `newCat` is assigned only when the jet migrates, so for a jet that
      keeps its category the returned value is uninitialised (None). */
  function GetNewCatAsWritten(sf: real, oldCat: int, eff: real, rand: real): (r: Option<int>)
    ensures r.Some? <==> TopSelection.GetNewTopCat(sf, oldCat, eff, rand, false) != oldCat
    ensures r.Some? ==> r.value == TopSelection.GetNewTopCat(sf, oldCat, eff, rand, false)
  {
    if sf < 1.0 then
      (if oldCat == 1 && rand < 1.0 - sf then Some(0) else None)
    else
      (if oldCat == 0 && Lt(Num(rand), TopSelection.PromotionThreshold(sf, eff)) then Some(1) else None)
  }

  /** A failing jet whose factor is below 1 may never be promoted, and the written `getNewCat`
      returns an uninitialised category for it. */
  lemma GetNewCatUninitialised()
    ensures GetNewCatAsWritten(0.9, 0, 0.5, 0.3).None?
    ensures TopSelection.GetNewTopCat(0.9, 0, 0.5, 0.3, false) == 0
  {
  }

  /** The handler, with the corrected category update (the per-event modules' `getNewTopCat`).
      The default-seeded `TRandom` stream is the function `rnd`, read at `cursor`. */
  class Handler {
    /** The working point is stored and never read. */
    const wp: real
    const effs: (real, real)
    const year: string
    const variation: int
    const idxs: (int, int)
    const rnd: nat -> real
    var cursor: nat
    const newTags0: array<int>
    const origTags0: array<int>
    const newTags1: array<int>
    const origTags1: array<int>

    predicate Valid()
    {
      0 <= variation < 3 &&
      newTags0.Length == 2 && origTags0.Length == 2 && newTags1.Length == 2 && origTags1.Length == 2 &&
      newTags0 != origTags0 && newTags0 != newTags1 && newTags0 != origTags1 &&
      origTags0 != newTags1 && origTags0 != origTags1 && newTags1 != origTags1
    }

    /** The factor of a jet with a valid original category. */
    function SF(jetCat: int, pt: real): real
      requires Valid() && (jetCat == 0 || jetCat == 1)
    {
      GetSF(jetCat, pt, year, variation).value
    }

    constructor (wp: real, effs: (real, real), year: string, idxs: (int, int), variation: int, rnd: nat -> real)
      requires 0 <= variation < 3
      ensures Valid() && fresh(newTags0) && fresh(origTags0) && fresh(newTags1) && fresh(origTags1)
      ensures this.wp == wp && this.effs == effs && this.year == year && this.idxs == idxs
      ensures this.variation == variation && this.rnd == rnd && cursor == 0
      ensures newTags0[..] == [0, 0] && origTags0[..] == [0, 0] && newTags1[..] == [0, 0] && origTags1[..] == [0, 0]
    {
      this.wp, this.effs, this.year, this.idxs, this.variation, this.rnd := wp, effs, year, idxs, variation, rnd;
      cursor := 0;
      newTags0 := new int[2](_ => 0);
      origTags0 := new int[2](_ => 0);
      newTags1 := new int[2](_ => 0);
      origTags1 := new int[2](_ => 0);
      new;
      assert newTags0[..] == [0, 0] && origTags0[..] == [0, 0] && newTags1[..] == [0, 0] && origTags1[..] == [0, 0];
    }

    /** `updateTag`: both candidates are counted in their original category, migrated with one
        draw each (the first candidate first), counted in their new category and returned. */
    method UpdateTag(jetCat: seq<int>, pt: seq<real>) returns (out: seq<int>)
      requires Valid()
      requires 0 <= idxs.0 < |jetCat| && 0 <= idxs.0 < |pt| && 0 <= idxs.1 < |jetCat| && 0 <= idxs.1 < |pt|
      requires 0 <= jetCat[idxs.0] <= 1 && 0 <= jetCat[idxs.1] <= 1
      modifies this, newTags0, origTags0, newTags1, origTags1
      ensures var c0, c1 := jetCat[idxs.0], jetCat[idxs.1];
        out == [TopSelection.GetNewTopCat(SF(c0, pt[idxs.0]), c0, effs.0, rnd(old(cursor)), false),
                TopSelection.GetNewTopCat(SF(c1, pt[idxs.1]), c1, effs.1, rnd(old(cursor) + 1), false)]
      ensures 0 <= out[0] <= 1 && 0 <= out[1] <= 1 && cursor == old(cursor) + 2
      ensures origTags0[..] == old(origTags0[..])[jetCat[idxs.0] := old(origTags0[jetCat[idxs.0]]) + 1]
      ensures origTags1[..] == old(origTags1[..])[jetCat[idxs.1] := old(origTags1[jetCat[idxs.1]]) + 1]
      ensures newTags0[..] == old(newTags0[..])[out[0] := old(newTags0[out[0]]) + 1]
      ensures newTags1[..] == old(newTags1[..])[out[1] := old(newTags1[out[1]]) + 1]
    {
      var c0, c1 := jetCat[idxs.0], jetCat[idxs.1];
      var pt0, pt1 := pt[idxs.0], pt[idxs.1];
      var sf0, sf1 := SF(c0, pt0), SF(c1, pt1);
      var rn0 := rnd(cursor);
      var rn1 := rnd(cursor + 1);
      var n0 := TopSelection.GetNewTopCat(sf0, c0, effs.0, rn0, false);
      var n1 := TopSelection.GetNewTopCat(sf1, c1, effs.1, rn1, false);
      out := [n0, n1];
      cursor := cursor + 2;
      origTags0[c0] := origTags0[c0] + 1;
      origTags1[c1] := origTags1[c1] + 1;
      newTags0[n0] := newTags0[n0] + 1;
      newTags1[n1] := newTags1[n1] + 1;
    }
  }
}
