/** Extended reals with the IEEE-754 special values, for the few places where the analysis code
    divides by a quantity that can be zero or infinite.  Rounding is not modelled: a finite value
    is an exact real.  The sign of zero is kept, because it decides the sign of an infinite
    quotient.  `Num(0.0)` is +0. */
module Ieee {

  datatype Ext = Num(v: real) | NegZero | PosInf | NegInf | NaN

  predicate IsFinite(e: Ext) { e.Num? || e.NegZero? }

  predicate IsZero(e: Ext) { e == Num(0.0) || e.NegZero? }

  /** The sign bit of a non-NaN value. */
  predicate SignBit(e: Ext) { (e.Num? && e.v < 0.0) || e.NegZero? || e.NegInf? }

  function Val(e: Ext): real
    requires IsFinite(e)
  {
    if e.Num? then e.v else 0.0
  }

  function Zero(negative: bool): Ext { if negative then NegZero else Num(0.0) }

  function Inf(negative: bool): Ext { if negative then NegInf else PosInf }

  /** A finite result with the given sign for the case that it is zero. */
  function Finite(x: real, negativeIfZero: bool): (r: Ext)
    ensures IsFinite(r) && Val(r) == x
  {
    if x == 0.0 then Zero(negativeIfZero) else Num(x)
  }

  function Neg(a: Ext): (r: Ext)
    ensures IsFinite(a) ==> IsFinite(r) && Val(r) == -Val(a)
    ensures a.NaN? <==> r.NaN?
  {
    match a
    case Num(x) => if x == 0.0 then NegZero else Num(-x)
    case NegZero => Num(0.0)
    case PosInf => NegInf
    case NegInf => PosInf
    case NaN => NaN
  }

  /** IEEE addition in round-to-nearest: x + (-x) is +0, and -0 + -0 is -0. */
  function Add(a: Ext, b: Ext): (r: Ext)
    ensures IsFinite(a) && IsFinite(b) ==> IsFinite(r) && Val(r) == Val(a) + Val(b)
    ensures (a.PosInf? && b.NegInf?) || (a.NegInf? && b.PosInf?) ==> r.NaN?
  {
    if a.NaN? || b.NaN? then NaN
    else if a.PosInf? then (if b.NegInf? then NaN else PosInf)
    else if a.NegInf? then (if b.PosInf? then NaN else NegInf)
    else if !IsFinite(b) then b
    else Finite(Val(a) + Val(b), a.NegZero? && b.NegZero?)
  }

  function Sub(a: Ext, b: Ext): (r: Ext)
    ensures IsFinite(a) && IsFinite(b) ==> IsFinite(r) && Val(r) == Val(a) - Val(b)
  {
    Add(a, Neg(b))
  }

  function Mul(a: Ext, b: Ext): (r: Ext)
    ensures IsFinite(a) && IsFinite(b) ==> IsFinite(r) && Val(r) == Val(a) * Val(b)
    ensures (IsZero(a) && (b.PosInf? || b.NegInf?)) ==> r.NaN?
  {
    if a.NaN? || b.NaN? then NaN
    else if !IsFinite(a) || !IsFinite(b) then
      (if IsZero(a) || IsZero(b) then NaN else Inf(SignBit(a) != SignBit(b)))
    else Finite(Val(a) * Val(b), SignBit(a) != SignBit(b))
  }

  /** IEEE division, including x/0 = +-inf for x != 0, 0/0 = NaN and x/inf = +-0. */
  function Div(a: Ext, b: Ext): (r: Ext)
    ensures IsFinite(a) && IsFinite(b) && !IsZero(b) ==> IsFinite(r) && Val(r) == Val(a) / Val(b)
    ensures IsFinite(a) && !IsZero(a) && IsZero(b) ==> r == Inf(SignBit(a) != SignBit(b))
    ensures IsZero(a) && IsZero(b) ==> r.NaN?
  {
    if a.NaN? || b.NaN? then NaN
    else if !IsFinite(a) then (if !IsFinite(b) then NaN else Inf(SignBit(a) != SignBit(b)))
    else if !IsFinite(b) then Zero(SignBit(a) != SignBit(b))
    else if IsZero(b) then (if IsZero(a) then NaN else Inf(SignBit(a) != SignBit(b)))
    else Finite(Val(a) / Val(b), SignBit(a) != SignBit(b))
  }

  /** IEEE `<`: false whenever a NaN is involved, and -0 < +0 is false. */
  predicate Lt(a: Ext, b: Ext)
  {
    if a.NaN? || b.NaN? then false
    else if a.NegInf? then !b.NegInf?
    else if a.PosInf? then false
    else if b.PosInf? then true
    else if b.NegInf? then false
    else Val(a) < Val(b)
  }

  lemma LtFinite(a: Ext, b: Ext)
    requires IsFinite(a) && IsFinite(b)
    ensures Lt(a, b) <==> Val(a) < Val(b)
  {
  }

  /** `Lt` is downward closed in its left operand: any smaller finite value is also below `b`. */
  lemma LtDownward(x: real, y: real, b: Ext)
    requires x <= y && Lt(Num(y), b)
    ensures Lt(Num(x), b)
  {
  }

  lemma LtNaN(x: real)
    ensures !Lt(Num(x), NaN)
  {
  }

  /** `M_PI`, the double nearest to pi. */
  const Pi: real := 3.141592653589793

  /** C++ conversion of a floating value to int: truncation toward zero. */
  function Trunc(x: real): (r: int)
    ensures x >= 0.0 ==> r as real <= x < r as real + 1.0
    ensures x < 0.0 ==> r as real - 1.0 < x <= r as real
  {
    if x >= 0.0 then x.Floor else -((-x).Floor)
  }

  function Abs(x: real): (r: real)
    ensures r >= 0.0 && (r == x || r == -x)
  {
    if x < 0.0 then -x else x
  }
}
