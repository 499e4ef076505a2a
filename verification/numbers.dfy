/**
 * JavaScript numbers as the metric engine meets them: finite values, the
 * infinities that a division by zero or an empty `Math.max()` produces, and
 * NaN (which also stands for `undefined`, since the two compare alike).
 */
module Numbers {

  datatype Num = NegInf | Fin(x: real) | PosInf | NaN

  /**
   * JavaScript's `a < b`: false whenever either side is NaN, the usual order
   * on finite values, with -Infinity below and +Infinity above all of them.
   */
  predicate Less(a: Num, b: Num)
    ensures Less(a, b) ==> !a.NaN? && !b.NaN? && a != b && !a.PosInf? && !b.NegInf?
    ensures a.Fin? && b.Fin? ==> (Less(a, b) <==> a.x < b.x)
    ensures a.NegInf? && (b.Fin? || b.PosInf?) ==> Less(a, b)
    ensures a.Fin? && b.PosInf? ==> Less(a, b)
  {
    match a
    case NaN => false
    case NegInf => !b.NaN? && !b.NegInf?
    case Fin(x) => b.PosInf? || (b.Fin? && x < b.x)
    case PosInf => false
  }

  /** JavaScript's `v > 0`. */
  predicate Positive(v: Num)
  {
    Less(Fin(0.0), v)
  }

  /** `v || 0`: the falsy numbers (NaN and zero) become 0, every other number is kept. */
  function OrZero(v: Num): (r: Num)
    ensures !r.NaN?
    ensures Positive(v) ==> r == v
    ensures v.NaN? ==> r == Fin(0.0)
  {
    match v
    case NaN => Fin(0.0)
    case Fin(x) => if x == 0.0 then Fin(0.0) else v
    case _ => v
  }

  /** `Math.max(a, b)`: NaN when either argument is NaN, otherwise the larger one. */
  function MathMax(a: Num, b: Num): (r: Num)
    ensures a.NaN? || b.NaN? ==> r.NaN?
    ensures !a.NaN? && !b.NaN? ==> !Less(r, a) && !Less(r, b) && (r == a || r == b)
  {
    if a.NaN? || b.NaN? then NaN else if Less(a, b) then b else a
  }

  /** On numbers that are not NaN, `<` is a strict total order. */
  lemma LessTotal(a: Num, b: Num)
    requires !a.NaN? && !b.NaN?
    ensures !Less(a, b) && !Less(b, a) ==> a == b
    ensures !(Less(a, b) && Less(b, a))
  {
  }

  /**
   * "Not less than" is transitive on three numbers that are all NaN or all
   * not NaN; this is what a descending sort relies on.
   */
  lemma NotLessTransitive(a: Num, b: Num, c: Num)
    requires a.NaN? == b.NaN? && b.NaN? == c.NaN?
    requires !Less(a, b) && !Less(b, c)
    ensures !Less(a, c)
  {
  }
}
