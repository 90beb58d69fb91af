/** The ParticleNet photon-pair scale-factor handler (class `PNetSaaSFHandler`): one working point,
    so two categories, 0 (fail) and 1 (pass).  Its scale-factor tables hold 1.0 in every entry,
    so the jet-by-jet update never moves a jet. */
module SaaSF {
  import opened Wrappers
  import opened CSwitch
  import opened Eras
  import opened MigrationRecipe
  import XbbSF

  /** Every one of the eight tables (tight and loose, four eras) is 1.0 throughout. */
  function SaaTable(e: Era): (t: seq<seq<real>>)
    ensures IsGrid(t, 3, 3)
    ensures forall v, k :: 0 <= v < 3 && 0 <= k < 3 ==> t[v][k] == 1.0
  {
    [[1.0, 1.0, 1.0], [1.0, 1.0, 1.0], [1.0, 1.0, 1.0]]
  }

  /** `getWPcat` (and `createTag`): pass iff strictly above the working point. */
  function WPCat(v: real, wp: real): (c: int)
    ensures c == 0 || c == 1
    ensures c == 1 <==> v > wp
  {
    if v > wp then 1 else 0
  }

  /** `getSF`: the pT bins of the Xbb handler, then a `switch` without `break` that runs from the
      category's arm into the tight arm.  Whatever the arm, the entry read is 1.0. */
  function GetSF(pt: real, v: real, wp: real, year: string, variation: int): (r: real)
    requires 0 <= variation < 3
    ensures r == 1.0
  {
    match XbbSF.XbbPtCat(pt)
    case None => 1.0
    case Some(k) =>
      var e := EraOf(year);
      var sw := FallThrough(WPCat(v, wp), [1.0, SaaTable(e)[variation][k], SaaTable(e)[variation][k]]);
      sw.value
  }

  /** The scalar update rule with the handler's unit factor leaves every category as it was and
      takes exactly one draw. */
  lemma UnitUpdateKeepsCategory(cat: int, eff: real, rn1: real, rn2: real)
    requires 0 <= cat <= 2
    ensures HandlerUpdate(cat, 1.0, eff, eff, rn1, rn2) == Update(cat, 1)
  {
  }

  /** The vector update rule with a unit factor is the identity. */
  lemma UnitVectorUpdateKeepsCategory(cat: int, eff: real, rn: real)
    requires 0 <= cat <= 2
    ensures VectorUpdate(cat, 1.0, 1.0, eff, eff, rn) == cat
  {
  }

  /** The handler.  The seeded `TRandom(1234)` stream is the function `rnd`, read at `cursor`. */
  class Handler {
    const wp: real
    const eff: real
    const year: string
    const variation: int
    const rnd: nat -> real
    var cursor: nat
    /** `_newTags` and `_origTags`: photon jets per category [fail, pass]. */
    const newTags: array<int>
    const origTags: array<int>

    predicate Valid()
    {
      0 <= variation < 3 && newTags.Length == 2 && origTags.Length == 2 && newTags != origTags
    }

    function SF(pt: real, v: real): real
      requires Valid()
    {
      GetSF(pt, v, wp, year, variation)
    }

    constructor (wp: real, eff: real, year: string, variation: int, rnd: nat -> real)
      requires 0 <= variation < 3
      ensures Valid() && fresh(newTags) && fresh(origTags)
      ensures this.wp == wp && this.eff == eff && this.year == year && this.variation == variation
      ensures this.rnd == rnd && cursor == 0
      ensures newTags[..] == [0, 0] && origTags[..] == [0, 0]
    {
      this.wp, this.eff, this.year, this.variation, this.rnd := wp, eff, year, variation, rnd;
      cursor := 0;
      newTags := new int[2](_ => 0);
      origTags := new int[2](_ => 0);
      new;
      assert newTags[..] == [0, 0] && origTags[..] == [0, 0];
    }

    /** `createTag`: the photon jet's category, counted in `_origTags`. */
    method CreateTag(v: real) returns (c: int)
      requires Valid()
      modifies origTags
      ensures c == WPCat(v, wp)
      ensures origTags[..] == old(origTags[..])[c := old(origTags[c]) + 1]
    {
      if v > wp {
        origTags[1] := origTags[1] + 1;
        c := 1;
      } else {
        origTags[0] := origTags[0] + 1;
        c := 0;
      }
    }

    /** Scalar `updateTag`: the update rule with both factors and both efficiencies equal; with
        the unit factor the category is kept, and one draw is taken. */
    method UpdateTag(photonCat: int, pt: real, v: real) returns (c: int)
      requires Valid() && 0 <= photonCat <= 1
      modifies this, newTags
      ensures c == HandlerUpdate(photonCat, SF(pt, v), eff, eff, rnd(old(cursor)), rnd(old(cursor) + 1)).cat
      ensures c == photonCat && cursor == old(cursor) + 1
      ensures newTags[..] == old(newTags[..])[c := old(newTags[c]) + 1]
    {
      var sf := SF(pt, v);
      var u := ScalarUpdate(photonCat, sf, sf, eff, eff, rnd(cursor), rnd(cursor + 1));
      UnitUpdateKeepsCategory(photonCat, eff, rnd(cursor), rnd(cursor + 1));
      cursor := cursor + u.draws;
      newTags[u.cat] := newTags[u.cat] + 1;
      c := u.cat;
    }

    /** Vector `createTag`. */
    method CreateTags(vals: seq<real>) returns (cats: seq<int>)
      requires Valid()
      modifies origTags
      ensures |cats| == |vals|
      ensures forall i :: 0 <= i < |vals| ==> cats[i] == WPCat(vals[i], wp)
      ensures forall k :: 0 <= k < 2 ==> origTags[k] == old(origTags[k]) + Count(cats, k)
    {
      cats := [];
      for i := 0 to |vals|
        invariant |cats| == i
        invariant forall j :: 0 <= j < i ==> cats[j] == WPCat(vals[j], wp)
        invariant forall k :: 0 <= k < 2 ==> origTags[k] == old(origTags[k]) + Count(cats, k)
      {
        var c := WPCat(vals[i], wp);
        origTags[c] := origTags[c] + 1;
        forall k | 0 <= k < 2
          ensures Count(cats + [c], k) == Count(cats, k) + (if c == k then 1 else 0)
        {
          CountSnoc(cats, c, k);
        }
        cats := cats + [c];
      }
    }

    /** Vector `updateTag`: the vector rule per jet, one draw each, entries past `pt` left at 0;
        with the unit factor every jet keeps its category. */
    method UpdateTags(jetCats: seq<int>, pt: seq<real>, vals: seq<real>) returns (cats: seq<int>)
      requires Valid() && |pt| <= |jetCats| && |pt| <= |vals|
      requires forall i :: 0 <= i < |pt| ==> 0 <= jetCats[i] <= 1
      modifies this, newTags
      ensures |cats| == |jetCats| && cursor == old(cursor) + |pt|
      ensures forall i :: 0 <= i < |pt| ==>
        cats[i] == VectorUpdate(jetCats[i], SF(pt[i], vals[i]), SF(pt[i], vals[i]), eff, eff, rnd(old(cursor) + i))
      ensures cats[..|pt|] == jetCats[..|pt|]
      ensures forall i :: |pt| <= i < |jetCats| ==> cats[i] == 0
      ensures forall k :: 0 <= k < 2 ==> newTags[k] == old(newTags[k]) + Count(jetCats[..|pt|], k)
    {
      var done: seq<int> := [];
      for i := 0 to |pt|
        invariant cursor == old(cursor) + i && |done| == i
        invariant done == jetCats[..i]
        invariant forall j :: 0 <= j < i ==>
          done[j] == VectorUpdate(jetCats[j], SF(pt[j], vals[j]), SF(pt[j], vals[j]), eff, eff, rnd(old(cursor) + j))
        invariant forall k :: 0 <= k < 2 ==> newTags[k] == old(newTags[k]) + Count(done, k)
      {
        var sfL := SF(pt[i], vals[i]);
        var sfT := SF(pt[i], vals[i]);
        var newCat := VectorUpdate(jetCats[i], sfL, sfT, eff, eff, rnd(cursor));
        UnitVectorUpdateKeepsCategory(jetCats[i], eff, rnd(cursor));
        cursor := cursor + 1;
        newTags[newCat] := newTags[newCat] + 1;
        forall k | 0 <= k < 2
          ensures Count(done + [newCat], k) == Count(done, k) + (if newCat == k then 1 else 0)
        {
          CountSnoc(done, newCat, k);
        }
        assert jetCats[..i + 1] == jetCats[..i] + [newCat];
        done := done + [newCat];
      }
      cats := done + seq(|jetCats| - |pt|, _ => 0);
      assert cats[..|pt|] == done;
    }
  }
}
