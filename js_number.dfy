/** The JavaScript numbers the handlers compute with: exact values, the two
    infinities and NaN, with the operators' IEEE rules for the
    non-finite cases. Finite values are exact reals (no rounding error). */
module JsNumber {

  datatype Num = Fin(v: real) | PosInf | NegInf | NaN

  /** `-a`. */
  function Neg(a: Num): Num
  {
    match a
    case Fin(v) => Fin(-v)
    case PosInf => NegInf
    case NegInf => PosInf
    case NaN => NaN
  }

  /** `a + b`: NaN absorbs, opposite infinities give NaN. */
  function Add(a: Num, b: Num): (s: Num)
    ensures a.Fin? && b.Fin? ==> s == Fin(a.v + b.v)
    ensures a.NaN? || b.NaN? ==> s.NaN?
  {
    match (a, b)
    case (NaN, _) => NaN
    case (_, NaN) => NaN
    case (Fin(x), Fin(y)) => Fin(x + y)
    case (Fin(_), _) => b
    case (_, Fin(_)) => a
    case (PosInf, PosInf) => PosInf
    case (NegInf, NegInf) => NegInf
    case (_, _) => NaN
  }

  /** `a - b`. */
  function Sub(a: Num, b: Num): Num
  {
    Add(a, Neg(b))
  }

  /** `a * k` for a finite `k`: an infinity times zero is NaN. */
  function Scale(a: Num, k: real): (p: Num)
    ensures a.Fin? ==> p == Fin(a.v * k)
    ensures a.NaN? ==> p.NaN?
  {
    match a
    case Fin(_) => Fin(a.v * k)
    case NaN => NaN
    case _ => if k > 0.0 then a else if k < 0.0 then Neg(a) else NaN
  }

  /** `a / d` for a finite divisor. A zero divisor is taken as +0: a
      positive numerator gives +Infinity, a negative one -Infinity and zero
      NaN. */
  function Div(a: Num, d: real): (q: Num)
    ensures a.NaN? ==> q.NaN?
    ensures a.Fin? && d != 0.0 ==> q == Fin(a.v / d)
  {
    match a
    case Fin(v) =>
      if d != 0.0 then Fin(v / d)
      else if v > 0.0 then PosInf
      else if v < 0.0 then NegInf
      else NaN
    case PosInf => if d >= 0.0 then PosInf else NegInf
    case NegInf => if d >= 0.0 then NegInf else PosInf
    case NaN => NaN
  }

  /** `a > bound`: false for NaN and -Infinity, true for +Infinity. */
  predicate Greater(a: Num, bound: real)
  {
    a.PosInf? || (a.Fin? && a.v > bound)
  }

  /** `Math.min(x, a)`: NaN if `a` is NaN. */
  function Min(x: real, a: Num): (m: Num)
    ensures a.NaN? <==> m.NaN?
    ensures m.Fin? ==> m.v <= x
  {
    match a
    case Fin(v) => Fin(if v < x then v else x)
    case PosInf => Fin(x)
    case NegInf => NegInf
    case NaN => NaN
  }

  /** `Math.max(x, a)`: NaN if `a` is NaN. */
  function Max(x: real, a: Num): (m: Num)
    ensures a.NaN? <==> m.NaN?
    ensures m.Fin? ==> m.v >= x
  {
    match a
    case Fin(v) => Fin(if v > x then v else x)
    case PosInf => PosInf
    case NegInf => Fin(x)
    case NaN => NaN
  }

  /** `Math.max(lo, Math.min(hi, a))`: any number but NaN lands in
      [lo, hi]. */
  lemma ClampInRange(lo: real, hi: real, a: Num)
    requires lo <= hi
    ensures a.NaN? <==> Max(lo, Min(hi, a)).NaN?
    ensures !a.NaN? ==> Max(lo, Min(hi, a)).Fin?
    ensures !a.NaN? ==> lo <= Max(lo, Min(hi, a)).v <= hi
    ensures a.Fin? && lo <= a.v <= hi ==> Max(lo, Min(hi, a)) == a
  {
  }

  /** `Math.round` on a finite value: the nearest integer, halves upward. */
  function RoundReal(x: real): (r: int)
    ensures x - 0.5 < r as real <= x + 0.5
  {
    (x + 0.5).Floor
  }

  function Round(a: Num): (r: Num)
    ensures a.Fin? <==> r.Fin?
    ensures a.Fin? ==> r.v == RoundReal(a.v) as real
  {
    match a
    case Fin(v) => Fin(RoundReal(v) as real)
    case _ => a
  }

  lemma RoundRealMonotone(x: real, y: real)
    requires x <= y
    ensures RoundReal(x) <= RoundReal(y)
  {
  }

  lemma RoundRealOfInteger(n: int)
    ensures RoundReal(n as real) == n
  {
  }

  /** `Number(x.toFixed(2))` on a finite value: the nearest multiple of
      1/100, halves away from zero. */
  function Fixed2Real(x: real): (r: real)
    ensures x >= 0.0 ==> x - 0.005 < r <= x + 0.005
    ensures x < 0.0 ==> x - 0.005 <= r < x + 0.005
  {
    if x >= 0.0 then (100.0 * x + 0.5).Floor as real / 100.0
    else -((-100.0 * x + 0.5).Floor as real / 100.0)
  }

  function Fixed2(a: Num): (r: Num)
    ensures a.Fin? <==> r.Fin?
    ensures a.Fin? ==> r.v == Fixed2Real(a.v)
  {
    match a
    case Fin(v) => Fin(Fixed2Real(v))
    case _ => a
  }

  /** Rounding to cents keeps a value that already is a whole number of
      cents. */
  lemma Fixed2OfCents(n: nat)
    ensures Fixed2Real(n as real / 100.0) == n as real / 100.0
  {
    var x := n as real / 100.0;
    assert 100.0 * x == n as real;
    assert (100.0 * x + 0.5).Floor == n;
  }

  lemma Fixed2Monotone(x: real, y: real)
    requires 0.0 <= x <= y
    ensures Fixed2Real(x) <= Fixed2Real(y)
  {
    assert 100.0 * x + 0.5 <= 100.0 * y + 0.5;
    assert (100.0 * x + 0.5).Floor <= (100.0 * y + 0.5).Floor;
  }

  /** A number after a trip through JSON: `JSON.stringify` writes NaN and
      the infinities as `null`. */
  datatype Wire = Number(v: real) | Null

  function ToWire(a: Num): (w: Wire)
    ensures w.Number? <==> a.Fin?
    ensures a.Fin? ==> w.v == a.v
  {
    if a.Fin? then Number(a.v) else Null
  }

  /** The value a relational operator compares: `null` counts as 0. */
  function Coerce(w: Wire): real
  {
    if w.Number? then w.v else 0.0
  }
}
