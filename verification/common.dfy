/**
 Numeric helpers shared by the scoring engine and the dashboard components:
 an optional value, the `Math.min`/`Math.max`/`Math.abs`/`Math.round` of the
 JavaScript runtime, stated over exact reals.
 */
module Common {

  /** An optional value: a TypeScript optional field, or a result JavaScript
      would only express as a non-finite number. */
  datatype Option<+T> = None | Some(value: T) {

    /** The value, or `default` when it is absent (a destructuring default). */
    function GetOr(default: T): T {
      if Some? then value else default
    }
  }

  function Min(a: real, b: real): (m: real)
    ensures m <= a && m <= b
    ensures m == a || m == b
  {
    if a <= b then a else b
  }

  function Max(a: real, b: real): (m: real)
    ensures a <= m && b <= m
    ensures m == a || m == b
  {
    if a >= b then a else b
  }

  function Abs(x: real): (r: real)
    ensures 0.0 <= r
    ensures r == x || r == -x
  {
    if x < 0.0 then -x else x
  }

  /** `Math.round`: the nearest integer, ties going towards positive infinity. */
  function Round(x: real): (n: int)
    ensures n as real - 0.5 <= x < n as real + 0.5
  {
    (x + 0.5).Floor
  }

  /** Rounding never reverses the order of its arguments. */
  lemma RoundMonotone(x: real, y: real)
    requires x <= y
    ensures Round(x) <= Round(y)
  {
  }

  /** Rounding an integer gives that integer back. */
  lemma RoundOfInteger(n: int)
    ensures Round(n as real) == n
  {
  }
}
