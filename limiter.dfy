/**
  The parameter limiter: `Limiter.limit(min, max, value)` pins a value into
  the inclusive range [min, max]. The audio tool uses an integer and a
  floating-point version with the same meaning; floating point is modelled
  over `real`.
 */
module Limiter {

  /** The integer limiter. */
  function Clamp(lo: int, hi: int, v: int): (r: int)
    requires lo <= hi
    ensures lo <= r <= hi
    ensures lo <= v <= hi ==> r == v
    ensures v < lo ==> r == lo
    ensures hi < v ==> r == hi
  {
    if v < lo then lo else if hi < v then hi else v
  }

  /** The floating-point limiter. */
  function ClampReal(lo: real, hi: real, v: real): (r: real)
    requires lo <= hi
    ensures lo <= r <= hi
    ensures lo <= v <= hi ==> r == v
    ensures v < lo ==> r == lo
    ensures hi < v ==> r == hi
  {
    if v < lo then lo else if hi < v then hi else v
  }

  /** Limiting an already limited value changes nothing. */
  lemma ClampIdempotent(lo: int, hi: int, v: int)
    requires lo <= hi
    ensures Clamp(lo, hi, Clamp(lo, hi, v)) == Clamp(lo, hi, v)
  {
  }

  lemma ClampRealIdempotent(lo: real, hi: real, v: real)
    requires lo <= hi
    ensures ClampReal(lo, hi, ClampReal(lo, hi, v)) == ClampReal(lo, hi, v)
  {
  }

  /** The limiter keeps the order of two values: it never turns an ordered pair around. */
  lemma ClampMonotone(lo: int, hi: int, v: int, w: int)
    requires lo <= hi
    ensures v <= w ==> Clamp(lo, hi, v) <= Clamp(lo, hi, w)
  {
  }
}
