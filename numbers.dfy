/**
 * JavaScript number behaviour that the pages rely on, written out over `real`:
 * division that can yield ±Infinity or NaN, `Math.ceil`, `Math.round`, and the
 * day arithmetic on millisecond time values.
 */
module Numbers {

  /** A JavaScript number produced by a division: finite, ±Infinity or NaN. */
  datatype Num = Finite(value: real) | PosInf | NegInf | NaN

  /** `a / b` with IEEE semantics for a zero divisor. */
  function Div(a: real, b: real): (r: Num)
    ensures r.Finite? <==> b != 0.0
    ensures r.Finite? ==> r.value * b == a
    ensures r == PosInf <==> b == 0.0 && a > 0.0
    ensures r == NegInf <==> b == 0.0 && a < 0.0
    ensures r == NaN <==> b == 0.0 && a == 0.0
  {
    if b != 0.0 then Finite(a / b)
    else if a > 0.0 then PosInf
    else if a < 0.0 then NegInf
    else NaN
  }

  /** `n * k` for a positive constant `k`. */
  function Scale(n: Num, k: real): (r: Num)
    requires k > 0.0
    ensures r.Finite? <==> n.Finite?
    ensures r.Finite? ==> r.value == n.value * k
    ensures !r.Finite? ==> r == n
  {
    match n
    case Finite(v) => Finite(v * k)
    case _ => n
  }

  /** `a / b * 100`, the percentage the pages display. */
  function Percent(a: real, b: real): Num {
    Scale(Div(a, b), 100.0)
  }

  /** `n > c`; every comparison with NaN is false. */
  predicate Greater(n: Num, c: real) {
    match n
    case Finite(v) => v > c
    case PosInf => true
    case NegInf => false
    case NaN => false
  }

  /** `n >= c`. */
  predicate AtLeast(n: Num, c: real) {
    match n
    case Finite(v) => v >= c
    case PosInf => true
    case NegInf => false
    case NaN => false
  }

  /** `Math.min(n, c)`: NaN if `n` is NaN. */
  function Min(n: Num, c: real): (r: Num)
    ensures r != NaN ==> r == NegInf || (r.Finite? && r.value <= c)
    ensures r == NaN <==> n == NaN
  {
    match n
    case Finite(v) => Finite(if v < c then v else c)
    case PosInf => Finite(c)
    case NegInf => NegInf
    case NaN => NaN
  }

  /** `Math.ceil(x)`: the least integer not below `x`. */
  function Ceil(x: real): (r: int)
    ensures x <= r as real < x + 1.0
  {
    -((-x).Floor)
  }

  /** `Math.round(x)`: the nearest integer, halves rounded up. */
  function Round(x: real): (r: int)
    ensures r as real - 0.5 <= x < r as real + 0.5
  {
    (x + 0.5).Floor
  }

  /** Milliseconds in a day, `1000 * 60 * 60 * 24`. */
  const DayMs: int := 86400000

  /** `Math.ceil((target - now) / (1000 * 60 * 60 * 24))` for two time values in milliseconds. */
  function DaysUntil(target: int, now: int): (r: int)
    ensures (r - 1) * DayMs < target - now <= r * DayMs
  {
    var r := Ceil((target - now) as real / DayMs as real);
    assert (target - now) as real <= r as real * DayMs as real;
    assert (r - 1) as real * DayMs as real < (target - now) as real;
    r
  }
}
