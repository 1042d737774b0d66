/** Loss values as the training loop compares and sums them: a Python float is
    either finite, positive infinity (the initial best loss, or the negative log
    of a zero probability) or NaN. Negative infinity never arises for a loss. */
module ExtReals {

  datatype ExtReal = Num(v: real) | PosInf | NaN

  /** The `<` of two floats: NaN compares lower than nothing and nothing
      compares lower than NaN; infinity is lower than nothing. */
  predicate Less(a: ExtReal, b: ExtReal) {
    match (a, b)
    case (Num(x), Num(y)) => x < y
    case (Num(_), PosInf) => true
    case _ => false
  }

  /** Float addition restricted to the values above. */
  function Add(a: ExtReal, b: ExtReal): ExtReal {
    if a.NaN? || b.NaN? then NaN
    else if a.PosInf? || b.PosInf? then PosInf
    else Num(a.v + b.v)
  }

  /** Division of a running sum by a positive count. */
  function DivBy(a: ExtReal, n: nat): ExtReal
    requires n > 0
  {
    match a
    case Num(x) => Num(x / n as real)
    case PosInf => PosInf
    case NaN => NaN
  }

  /** `Less` is a strict order on the finite values and infinity, with
      infinity above every finite value, and NaN unordered. */
  lemma LessIsFloatLess(a: ExtReal, b: ExtReal)
    ensures !Less(a, a)
    ensures Less(a, b) ==> !Less(b, a)
    ensures !Less(a, NaN) && !Less(NaN, a)
    ensures !Less(PosInf, a)
    ensures Less(a, PosInf) <==> a.Num?
    ensures a.Num? && b.Num? ==> (Less(a, b) <==> a.v < b.v)
  {
  }

  /** `Add` is commutative and associative with 0 as its unit; NaN absorbs
      everything and infinity absorbs every finite value. */
  lemma AddIsFloatAdd(a: ExtReal, b: ExtReal, c: ExtReal)
    ensures Add(a, b) == Add(b, a)
    ensures Add(Add(a, b), c) == Add(a, Add(b, c))
    ensures Add(a, Num(0.0)) == a
    ensures Add(a, b).NaN? <==> a.NaN? || b.NaN?
    ensures Add(a, b).PosInf? <==> !a.NaN? && !b.NaN? && (a.PosInf? || b.PosInf?)
    ensures a.Num? && b.Num? ==> Add(a, b) == Num(a.v + b.v)
  {
  }

  /** Dividing by a positive count keeps infinity and NaN, and undoes a
      multiplication of a finite value by the count. */
  lemma DivByIsFloatDiv(a: ExtReal, n: nat)
    requires n > 0
    ensures DivBy(a, n).Num? <==> a.Num?
    ensures DivBy(a, n).PosInf? <==> a.PosInf?
    ensures a.Num? ==> DivBy(a, n).v * n as real == a.v
    ensures DivBy(a, 1) == a
  {
  }

  lemma LessTransitive(a: ExtReal, b: ExtReal, c: ExtReal)
    requires Less(a, b) && Less(b, c)
    ensures Less(a, c)
  {
  }
}
