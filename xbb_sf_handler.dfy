/** The ParticleNet Xbb scale-factor handler (class `PNetXbbSFHandler`): working-point
    categories 0 (fail), 1 (loose, between the two working points) and 2 (tight), pT-binned
    scale factors, and per-category counters of the original and the migrated categories. */
module XbbSF {
  import opened Wrappers
  import opened CSwitch
  import opened MigrationRecipe
  import opened Eras

  /** Tight-working-point factors, [variation][pT bin]. */
  function XbbTightTable(e: Era): (t: seq<seq<real>>)
    ensures IsGrid(t, 3, 3)
  {
    match e
    case Era2016APV => [[1.163, 1.206, 1.491], [1.437, 1.529, 2.083], [0.949, 0.924, 0.909]]
    case Era2016    => [[1.012, 1.247, 1.188], [1.180, 1.509, 1.424], [0.899, 0.999, 0.960]]
    case Era2017    => [[0.946, 1.027, 0.900], [1.075, 1.158, 1.026], [0.830, 0.880, 0.752]]
    case Era2018    => [[1.020, 1.013, 1.082], [1.146, 1.110, 1.240], [0.894, 0.912, 0.961]]
  }

  /** Loose-working-point factors, [variation][pT bin]. */
  function XbbLooseTable(e: Era): (t: seq<seq<real>>)
    ensures IsGrid(t, 3, 3)
  {
    match e
    case Era2016APV => [[1.102, 1.103, 0.645], [1.321, 1.355, 1.914], [0.918, 0.871, 0.955]]
    case Era2016    => [[1.032, 1.173, 1.145], [1.134, 1.382, 1.332], [0.932, 0.970, 0.954]]
    case Era2017    => [[0.973, 1.006, 1.059], [1.026, 1.064, 1.132], [0.904, 0.931, 0.982]]
    case Era2018    => [[0.904, 0.921, 1.087], [0.966, 0.969, 1.165], [0.824, 0.841, 0.975]]
  }

  /** The pT bin: [400, 600), [600, 800) and above 800; a jet of exactly 800 GeV is in no bin. */
  function XbbPtCat(pt: real): (c: Option<nat>)
    ensures c.Some? <==> (400.0 <= pt < 800.0 || pt > 800.0)
    ensures c == Some(0) <==> 400.0 <= pt < 600.0
    ensures c == Some(1) <==> 600.0 <= pt < 800.0
    ensures c == Some(2) <==> pt > 800.0
  {
    if 400.0 <= pt < 600.0 then Some(0)
    else if 600.0 <= pt < 800.0 then Some(1)
    else if pt > 800.0 then Some(2)
    else None
  }

  /** `getWPcat` (and the branches of `createTag`): 1 strictly between the working points, 2
      strictly above the upper one, 0 otherwise, so a value equal to either working point fails. */
  function WPCat(v: real, wpLo: real, wpHi: real): (c: int)
    ensures c == 0 || c == 1 || c == 2
    ensures c == 1 <==> wpLo < v < wpHi
    ensures c == 2 <==> !(wpLo < v < wpHi) && v > wpHi
  {
    if wpLo < v < wpHi then 1 else if v > wpHi then 2 else 0
  }

  /** `getSF`: 1.0 outside the pT bins; inside, the `switch` on the working-point category has no
      `break`, so every category runs on into the tight arm and the tight factor is returned. */
  function GetSF(pt: real, v: real, wpLo: real, wpHi: real, year: string, variation: int): (r: real)
    requires 0 <= variation < 3
    ensures XbbPtCat(pt).None? ==> r == 1.0
    ensures XbbPtCat(pt).Some? ==> r == XbbTightTable(EraOf(year))[variation][XbbPtCat(pt).value]
  {
    match XbbPtCat(pt)
    case None => 1.0
    case Some(k) =>
      var e := EraOf(year);
      var sw := FallThrough(WPCat(v, wpLo, wpHi), [1.0, XbbLooseTable(e)[variation][k], XbbTightTable(e)[variation][k]]);
      sw.value
  }

  /** The written vector `updateTag` can produce category 3 from a tabulated factor: a failing
      700 GeV jet of 2016APV (factor 1.206), efficiencies 0.3 and 0.3, and the draw 0.01. */
  lemma VectorUpdateTagReachesThree()
    ensures var sf := GetSF(700.0, 0.5, 0.8, 0.98, "2016APV", 0);
      sf == 1.206 && VectorUpdateAsWritten(0, sf, sf, 0.3, 0.3, 0.01) == 3
  {
    VectorUpdateReachesThree();
  }

  /** The handler.  The seeded `TRandom(1234)` stream is the function `rnd`, read at `cursor`. */
  class Handler {
    const wps: seq<real>
    const effs: seq<real>
    const year: string
    const variation: int
    const rnd: nat -> real
    /** `getSF(pt, val)` under this handler's working points, year and variation. */
    const sfOf: (real, real) -> real
    var cursor: nat
    /** `_newTags` and `_origTags`: jets per category [fail, loose, tight]. */
    const newTags: array<int>
    const origTags: array<int>

    predicate Valid()
    {
      |wps| >= 2 && |effs| >= 2 && 0 <= variation < 3 &&
      newTags.Length == 3 && origTags.Length == 3 && newTags != origTags
    }

    /** The scale factor of a jet under this handler's year and variation. */
    function SF(pt: real, v: real): real
      requires Valid()
    {
      sfOf(pt, v)
    }

    /** Working points {loose, tight}, efficiencies {loose, tight}; counters start at 0. */
    constructor (wps: seq<real>, effs: seq<real>, year: string, variation: int, rnd: nat -> real)
      requires |wps| >= 2 && |effs| >= 2 && 0 <= variation < 3
      ensures Valid() && fresh(newTags) && fresh(origTags)
      ensures this.wps == wps && this.effs == effs && this.year == year && this.variation == variation
      ensures this.rnd == rnd && cursor == 0
      ensures forall pt, v :: sfOf(pt, v) == GetSF(pt, v, wps[0], wps[1], year, variation)
      ensures newTags[..] == [0, 0, 0] && origTags[..] == [0, 0, 0]
    {
      this.wps, this.effs, this.year, this.variation, this.rnd := wps, effs, year, variation, rnd;
      sfOf := (pt, v) => GetSF(pt, v, wps[0], wps[1], year, variation);
      cursor := 0;
      newTags := new int[3](_ => 0);
      origTags := new int[3](_ => 0);
      new;
      assert newTags[..] == [0, 0, 0] && origTags[..] == [0, 0, 0];
    }

    /** `createTag`: the jet's category, counted in `_origTags`. */
    method CreateTag(v: real) returns (c: int)
      requires Valid()
      modifies origTags
      ensures c == WPCat(v, wps[0], wps[1])
      ensures origTags[..] == old(origTags[..])[c := old(origTags[c]) + 1]
    {
      if wps[0] < v < wps[1] {
        origTags[1] := origTags[1] + 1;
        c := 1;
      } else if v > wps[1] {
        origTags[2] := origTags[2] + 1;
        c := 2;
      } else {
        origTags[0] := origTags[0] + 1;
        c := 0;
      }
    }

    /** Scalar `updateTag`: the migrated category, counted in `_newTags`; one draw, or two when
        the tight promotion of a failing jet was tried and missed. */
    method UpdateTag(jetCat: int, pt: real, v: real) returns (c: int)
      requires Valid() && 0 <= jetCat <= 2
      modifies this, newTags
      ensures var u := HandlerUpdate(jetCat, SF(pt, v), effs[0], effs[1], rnd(old(cursor)), rnd(old(cursor) + 1));
        c == u.cat && cursor == old(cursor) + u.draws
      ensures newTags[..] == old(newTags[..])[c := old(newTags[c]) + 1]
    {
      var sfL := SF(pt, v);
      var sfT := SF(pt, v);
      var u := ScalarUpdate(jetCat, sfL, sfT, effs[0], effs[1], rnd(cursor), rnd(cursor + 1));
      cursor := cursor + u.draws;
      newTags[u.cat] := newTags[u.cat] + 1;
      c := u.cat;
    }

    /** Vector `createTag`: the categories of all jets, each counted in `_origTags`. */
    method CreateTags(vals: seq<real>) returns (cats: seq<int>)
      requires Valid()
      modifies origTags
      ensures |cats| == |vals|
      ensures forall i :: 0 <= i < |vals| ==> cats[i] == WPCat(vals[i], wps[0], wps[1])
      ensures forall k :: 0 <= k < 3 ==> origTags[k] == old(origTags[k]) + Count(cats, k)
    {
      var a := new int[|vals|];
      for i := 0 to |vals|
        invariant forall j :: 0 <= j < i ==> a[j] == WPCat(vals[j], wps[0], wps[1])
        invariant forall k :: 0 <= k < 3 ==> origTags[k] == old(origTags[k]) + Count(a[..i], k)
      {
        var c := WPCat(vals[i], wps[0], wps[1]);
        a[i] := c;
        origTags[c] := origTags[c] + 1;
        assert a[..i + 1][..i] == a[..i];
      }
      cats := a[..];
      assert a[..|vals|] == cats;
    }

    /** One jet of the vector `updateTag`: one draw, and the new category counted. */
    method UpdateJet(jetCat: int, pt: real, v: real) returns (c: int)
      requires Valid() && 0 <= jetCat <= 2
      modifies this, newTags
      ensures c == VectorUpdate(jetCat, SF(pt, v), SF(pt, v), effs[0], effs[1], rnd(old(cursor)))
      ensures 0 <= c <= 2 && cursor == old(cursor) + 1
      ensures forall k :: 0 <= k < 3 ==> newTags[k] == old(newTags[k]) + (if k == c then 1 else 0)
    {
      var sfL := SF(pt, v);
      var sfT := SF(pt, v);
      c := VectorUpdate(jetCat, sfL, sfT, effs[0], effs[1], rnd(cursor));
      cursor := cursor + 1;
      newTags[c] := newTags[c] + 1;
    }

    /** Vector `updateTag`, with the loose promotion tried only after a missed tight one (see
        VectorUpdateAsWritten for the rule as written): one draw per jet, the output as long as
        `jetCats`, and entries past `pt` left at 0. */
    method UpdateTags(jetCats: seq<int>, pt: seq<real>, vals: seq<real>) returns (cats: seq<int>)
      requires Valid() && |pt| <= |jetCats| && |pt| <= |vals|
      requires forall i :: 0 <= i < |pt| ==> 0 <= jetCats[i] <= 2
      modifies this, newTags
      ensures |cats| == |jetCats| && cursor == old(cursor) + |pt|
      ensures forall i :: 0 <= i < |pt| ==>
        cats[i] == VectorUpdate(jetCats[i], SF(pt[i], vals[i]), SF(pt[i], vals[i]), effs[0], effs[1], rnd(old(cursor) + i))
      ensures forall i :: |pt| <= i < |jetCats| ==> cats[i] == 0
      ensures forall k :: 0 <= k < 3 ==> newTags[k] == old(newTags[k]) + Count(cats[..|pt|], k)
    {
      ghost var c0 := cursor;
      ghost var expected := seq(|pt|, j requires 0 <= j < |pt| =>
        VectorUpdate(jetCats[j], SF(pt[j], vals[j]), SF(pt[j], vals[j]), effs[0], effs[1], rnd(c0 + j)));
      var done: seq<int> := [];
      for i := 0 to |pt|
        invariant cursor == c0 + i && done == expected[..i]
        invariant forall k :: 0 <= k < 3 ==> newTags[k] == old(newTags[k]) + Count(done, k)
      {
        var newCat := UpdateJet(jetCats[i], pt[i], vals[i]);
        forall k | 0 <= k < 3
          ensures Count(done + [newCat], k) == Count(done, k) + (if newCat == k then 1 else 0)
        {
          CountSnoc(done, newCat, k);
        }
        assert newCat == expected[i];
        PrefixSnoc(expected, i);
        done := done + [newCat];
      }
      assert done == expected;
      cats := done + seq(|jetCats| - |pt|, _ => 0);
      assert cats[..|pt|] == done;
    }
  }
}
