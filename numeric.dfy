/**
 * The double-precision arithmetic of the fitting routine, modelled exactly.
 * A finite value is an exact real. NaN is the one non-finite value the routine
 * can produce: 0/0 when a cluster received no point in a round. Every
 * operation propagates NaN, and every ordered comparison involving NaN is
 * false, as under IEEE 754.
 */
module Numeric {

  datatype Num = Fin(v: real) | NaN

  /** The value the running minimum starts from before any centroid is seen. */
  const Sentinel: Num := Fin(-1.0)

  function Add(a: Num, b: Num): Num
  {
    if a.Fin? && b.Fin? then Fin(a.v + b.v) else NaN
  }

  function Sub(a: Num, b: Num): Num
  {
    if a.Fin? && b.Fin? then Fin(a.v - b.v) else NaN
  }

  function Mul(a: Num, b: Num): Num
  {
    if a.Fin? && b.Fin? then Fin(a.v * b.v) else NaN
  }

  /**
   * Division of an accumulated coordinate by an unsigned point count.
   * A zero count gives NaN; the routine only ever divides a zero
   * accumulator by a zero count (0/0), which is NaN under IEEE 754.
   */
  function DivCount(a: Num, count: nat): Num
  {
    if a.Fin? && count != 0 then Fin(a.v / count as real) else NaN
  }

  /** Ordered "less than": false as soon as either side is NaN. */
  predicate Less(a: Num, b: Num)
  {
    a.Fin? && b.Fin? && a.v < b.v
  }
}
