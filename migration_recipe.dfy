/** The three-category jet-by-jet tag migration ("method 2a" of the CMS b-tagging scale-factor
    recipes) as coded in the Xbb and Saa scale-factor handlers.  Categories are 0 (fail),
    1 (loose) and 2 (tight).  Fractions that divide by a quantity that may vanish are computed in
    IEEE arithmetic (module Ieee), and every comparison of a draw against such a fraction is an
    IEEE `<`. */
module MigrationRecipe {
  import opened Ieee

  /** The outcome of one scalar update: the new category and how many draws it consumed. */
  datatype Update = Update(cat: int, draws: nat)

  /** The promotion fraction fail -> tight: effT (SF_T - 1) / (1 - (effL + effT)). */
  function TightFraction(sfT: real, effL: real, effT: real): Ext
  {
    Div(Num(effT * (sfT - 1.0)), Num(1.0 - (effL + effT)))
  }

  /** The promotion fraction fail -> loose after a failed tight promotion:
      effL (SF_L - 1) / ((1 - effL - effT) (1 - fT)). */
  function LooseFraction(sfL: real, effL: real, effT: real, fT: Ext): Ext
  {
    Div(Num(effL * (sfL - 1.0)), Mul(Num(1.0 - effL - effT), Sub(Num(1.0), fT)))
  }

  /** The promotion fraction fail -> loose of the mixed case SF_L > 1 > SF_T. */
  function LooseOnlyFraction(sfL: real, effL: real, effT: real): Ext
  {
    Div(Num(effL * (sfL - 1.0)), Num(1.0 - (effL + effT)))
  }

  /** The scalar `updateTag` rule, its four `if` blocks in source order.  `rn1` is the draw taken
      on entry; `rn2` is the second draw, read only when both factors exceed 1, the jet failed and
      the tight promotion did not fire. */
  function ScalarUpdate(cat: int, sfL: real, sfT: real, effL: real, effT: real, rn1: real, rn2: real): (u: Update)
    ensures u.draws == 1 || u.draws == 2
    ensures u.draws == 2 <==> sfL > 1.0 && sfT > 1.0 && cat == 0 && !Lt(Num(rn1), TightFraction(sfT, effL, effT))
  {
    var c1 :=
      if sfL < 1.0 && sfT < 1.0 then
        var a := if cat == 2 && rn1 < 1.0 - sfT then 0 else cat;
        if a == 1 && rn1 < 1.0 - sfL then 0 else a
      else cat;
    var fT := TightFraction(sfT, effL, effT);
    var step2 :=
      if sfL > 1.0 && sfT > 1.0 && c1 == 0 then
        if Lt(Num(rn1), fT) then Update(2, 1)
        else Update(if Lt(Num(rn2), LooseFraction(sfL, effL, effT, fT)) then 1 else 0, 2)
      else Update(c1, 1);
    var c2 := step2.cat;
    var c3 :=
      if sfL < 1.0 && sfT > 1.0 then
        var a := if c2 == 0 && Lt(Num(rn1), fT) then 2 else c2;
        if a == 1 && rn1 < 1.0 - sfL then 0 else a
      else c2;
    var c4 :=
      if sfL > 1.0 && sfT < 1.0 then
        var a := if c3 == 2 && rn1 < 1.0 - sfT then 0 else c3;
        if a == 0 && Lt(Num(rn1), LooseOnlyFraction(sfL, effL, effT)) then 1 else a
      else c3;
    Update(c4, step2.draws)
  }

  /** The rule as the handlers call it, with one scale factor for both working points: the mixed
      blocks never run, a factor below 1 only demotes a tagged jet to fail, a factor above 1 only
      promotes a failing jet, and a factor of exactly 1 changes nothing. */
  function HandlerUpdate(cat: int, sf: real, effL: real, effT: real, rn1: real, rn2: real): (u: Update)
    ensures 0 <= cat <= 2 ==> 0 <= u.cat <= 2
    ensures u.draws == (if sf > 1.0 && cat == 0 && !Lt(Num(rn1), TightFraction(sf, effL, effT)) then 2 else 1)
    ensures sf < 1.0 ==> ((u.cat != cat <==> (cat == 1 || cat == 2) && rn1 < 1.0 - sf) && (u.cat != cat ==> u.cat == 0))
    ensures sf > 1.0 && cat != 0 ==> u.cat == cat
    ensures sf > 1.0 && cat == 0 ==>
      (u.cat == 2 <==> Lt(Num(rn1), TightFraction(sf, effL, effT))) &&
      (u.cat == 1 <==> !Lt(Num(rn1), TightFraction(sf, effL, effT)) &&
                       Lt(Num(rn2), LooseFraction(sf, effL, effT, TightFraction(sf, effL, effT)))) &&
      (u.cat == 0 || u.cat == 1 || u.cat == 2)
    ensures sf == 1.0 ==> u == Update(cat, 1)
  {
    ScalarUpdate(cat, sf, sf, effL, effT, rn1, rn2)
  }

  /** The per-jet rule of the vector `updateTag`, as written: one draw per jet, and in the case
      SF_L, SF_T > 1 two independent `if`s, the second of which increments the category even when
      the first has just set it to 2. */
  function VectorUpdateAsWritten(cat: int, sfL: real, sfT: real, effL: real, effT: real, rn: real): (r: int)
    ensures 0 <= cat <= 2 ==> 0 <= r <= 3
  {
    if sfL < 1.0 && sfT < 1.0 then
      var a := if cat == 2 && rn < 1.0 - sfT then cat - 1 else cat;
      if a == 1 && rn < 1.0 - sfL then a - 1 else a
    else if sfL > 1.0 && sfT > 1.0 then
      if cat == 0 then
        var t := Div(Num(effT * (sfT - 1.0)), Num(1.0 - effL + effT));
        var a := if Lt(Num(rn), t) then 2 else cat;
        var l := Mul(Div(Num(effL * (sfL - 1.0)), Num(1.0 - effL - effT)), Sub(Num(1.0), t));
        if Lt(Num(rn), l) then a + 1 else a
      else cat
    else if sfL < 1.0 && sfT > 1.0 then
      var a := if cat == 0 && Lt(Num(rn), TightFraction(sfT, effL, effT)) then 2 else cat;
      if a == 1 && rn < 1.0 - sfL then a - 1 else a
    else if sfL > 1.0 && sfT < 1.0 then
      var a := if cat == 2 && rn < 1.0 - sfT then 0 else cat;
      if a == 0 && Lt(Num(rn), LooseOnlyFraction(sfL, effL, effT)) then a + 1 else a
    else cat
  }

  /** The per-jet rule of the vector `updateTag` with the loose promotion tried only when the tight
      one did not fire, as in the scalar rule. */
  function VectorUpdate(cat: int, sfL: real, sfT: real, effL: real, effT: real, rn: real): (r: int)
    ensures 0 <= cat <= 2 ==> 0 <= r <= 2
  {
    if sfL > 1.0 && sfT > 1.0 && cat == 0 then
      var t := Div(Num(effT * (sfT - 1.0)), Num(1.0 - effL + effT));
      var l := Mul(Div(Num(effL * (sfL - 1.0)), Num(1.0 - effL - effT)), Sub(Num(1.0), t));
      if Lt(Num(rn), t) then 2 else if Lt(Num(rn), l) then 1 else 0
    else VectorUpdateAsWritten(cat, sfL, sfT, effL, effT, rn)
  }

  /** The corrected rule differs from the written one exactly where the latter produces the
      category 3, which it replaces by 2. */
  lemma VectorUpdateCorrection(cat: int, sfL: real, sfT: real, effL: real, effT: real, rn: real)
    requires 0 <= cat <= 2
    ensures VectorUpdateAsWritten(cat, sfL, sfT, effL, effT, rn) == 3 ==> VectorUpdate(cat, sfL, sfT, effL, effT, rn) == 2
    ensures VectorUpdateAsWritten(cat, sfL, sfT, effL, effT, rn) != 3 ==>
              VectorUpdate(cat, sfL, sfT, effL, effT, rn) == VectorUpdateAsWritten(cat, sfL, sfT, effL, effT, rn)
  {
  }

  /** The written vector rule does reach 3: a failing jet, both factors 1.206 (a tabulated value),
      both efficiencies 0.3 and the draw 0.01 pass both promotion tests. */
  lemma VectorUpdateReachesThree()
    ensures VectorUpdateAsWritten(0, 1.206, 1.206, 0.3, 0.3, 0.01) == 3
  {
    var t := Div(Num(0.3 * (1.206 - 1.0)), Num(1.0 - 0.3 + 0.3));
    assert t == Num(0.0618);
    var l := Mul(Div(Num(0.3 * (1.206 - 1.0)), Num(1.0 - 0.3 - 0.3)), Sub(Num(1.0), t));
    assert Div(Num(0.3 * (1.206 - 1.0)), Num(1.0 - 0.3 - 0.3)) == Num(0.1545);
    assert Sub(Num(1.0), t) == Num(0.9382);
    assert l == Num(0.1545 * 0.9382);
  }

  /** Below 1 the vector rule, with one factor for both working points, demotes exactly as the
      scalar rule does. */
  lemma VectorMatchesScalarBelowOne(cat: int, sf: real, effL: real, effT: real, rn: real, rn2: real)
    requires 0 <= cat <= 2 && sf < 1.0
    ensures VectorUpdate(cat, sf, sf, effL, effT, rn) == HandlerUpdate(cat, sf, effL, effT, rn, rn2).cat
  {
  }

  /** A scale factor of 1 leaves every category unchanged in the vector rule too. */
  lemma VectorUnitFactorIdentity(cat: int, effL: real, effT: real, rn: real)
    ensures VectorUpdate(cat, 1.0, 1.0, effL, effT, rn) == cat
  {
  }

  /** The number of entries of `s` equal to `k`: what a `counter[k]++` per entry adds up to. */
  function Count(s: seq<int>, k: int): (n: nat)
    ensures n <= |s|
  {
    if s == [] then 0 else Count(s[..|s| - 1], k) + (if s[|s| - 1] == k then 1 else 0)
  }

  /** Appending an entry adds one to its own category's count and nothing to the others. */
  lemma CountSnoc(s: seq<int>, x: int, k: int)
    ensures Count(s + [x], k) == Count(s, k) + (if x == k then 1 else 0)
  {
    assert (s + [x])[..|s|] == s;
  }

  /** When every entry is a category below `m`, the per-category counts add up to the length. */
  lemma {:induction false} CountTotal(s: seq<int>, m: nat)
    requires forall i :: 0 <= i < |s| ==> 0 <= s[i] < m
    ensures SumCounts(s, m) == |s|
    decreases |s|
  {
    if s == [] {
      SumCountsEmpty(m);
    } else {
      var init, x := s[..|s| - 1], s[|s| - 1];
      assert s == init + [x];
      CountTotal(init, m);
      SumCountsStep(init, x, m, m);
      assert SumCounts(init + [x], m) == |init| + 1;
    }
  }

  /** Count(s, 0) + ... + Count(s, m - 1). */
  function SumCounts(s: seq<int>, m: nat): nat
  {
    if m == 0 then 0 else SumCounts(s, m - 1) + Count(s, m - 1)
  }

  lemma {:induction false} SumCountsEmpty(m: nat)
    ensures SumCounts([], m) == 0
  {
    if m > 0 {
      SumCountsEmpty(m - 1);
    }
  }

  lemma {:induction false} SumCountsStep(s: seq<int>, x: int, m: nat, k: nat)
    requires k <= m
    ensures SumCounts(s + [x], k) == SumCounts(s, k) + (if 0 <= x < k then 1 else 0)
    decreases k
  {
    if k > 0 {
      SumCountsStep(s, x, m, k - 1);
      assert (s + [x])[..|s + [x]| - 1] == s;
    }
  }
}
