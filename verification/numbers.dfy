/** JavaScript numbers as the progress computations use them: finite values are
    exact reals (rounding is not modelled), plus NaN and the two infinities. */
module JsNumber {

  datatype Num = NaN | PosInf | NegInf | Fin(r: real)

  /** `a === x` for a finite literal `x`. */
  predicate Is(a: Num, x: real) {
    a == Fin(x)
  }

  /** `a < x` for a finite `x` (false whenever `a` is NaN). */
  predicate Below(a: Num, x: real) {
    a.NegInf? || (a.Fin? && a.r < x)
  }

  /** `a > x` for a finite `x` (false whenever `a` is NaN). */
  predicate Above(a: Num, x: real) {
    a.PosInf? || (a.Fin? && a.r > x)
  }

  /** `a + b`. */
  function Add(a: Num, b: Num): (r: Num)
    ensures a.Fin? && b.Fin? ==> r == Fin(a.r + b.r)
    ensures a.NaN? || b.NaN? ==> r.NaN?
  {
    match (a, b)
    case (NaN, _) => NaN
    case (_, NaN) => NaN
    case (PosInf, NegInf) => NaN
    case (NegInf, PosInf) => NaN
    case (PosInf, _) => PosInf
    case (_, PosInf) => PosInf
    case (NegInf, _) => NegInf
    case (_, NegInf) => NegInf
    case (Fin(x), Fin(y)) => Fin(x + y)
  }

  /** `a / n` for a positive integer `n`. */
  function DivBy(a: Num, n: int): (r: Num)
    requires n > 0
    ensures a.Fin? <==> r.Fin?
    ensures a.Fin? ==> r.r * n as real == a.r
  {
    match a
    case Fin(x) => Fin(x / n as real)
    case _ => a
  }

  /** `(k / n) * 100` for array lengths `k` and `n`, with no guard on `n`:
      `0 / 0` is NaN and `k / 0` is Infinity. */
  function PercentOf(k: nat, n: nat): (r: Num)
    ensures n == 0 ==> !r.Fin?
    ensures n > 0 ==> r.Fin? && r.r * n as real == k as real * 100.0
  {
    if n == 0 then (if k == 0 then NaN else PosInf)
    else Fin((k as real / n as real) * 100.0)
  }
}
