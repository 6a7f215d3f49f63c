/**
 * The Python built-ins the rasteriser depends on, over exact reals:
 * `int()` on a float (truncation toward zero), `round()` (round half to even),
 * `abs()`, and subscripting with a possibly negative index.
 */
module PyNum {
  import opened Wrappers

  function Abs(n: int): (r: nat)
    ensures r == n || r == -n
  {
    if n < 0 then -n else n
  }

  /** Python's `int(x)` for a float `x`: drops the fractional part, toward zero. */
  function Trunc(x: real): (t: int)
    ensures 0.0 <= x ==> 0 <= t && t as real <= x < t as real + 1.0
    ensures x < 0.0 ==> t <= 0 && t as real - 1.0 < x <= t as real
  {
    if 0.0 <= x then x.Floor else -((-x).Floor)
  }

  /** Python's `round(x)` with one argument: nearest integer, ties to the even one. */
  function Round(x: real): (n: int)
    ensures -0.5 <= x - n as real <= 0.5
    ensures x - n as real == 0.5 || n as real - x == 0.5 ==> n % 2 == 0
  {
    var f := x.Floor;
    var frac := x - f as real;
    if frac < 0.5 then f
    else if frac > 0.5 then f + 1
    else if f % 2 == 0 then f else f + 1
  }

  /** Python's `s[i]` on a sequence: negative indices count from the end. */
  function PyIndex<T>(s: seq<T>, i: int): (r: Result<T>)
    ensures r.Success? <==> -|s| <= i < |s|
    ensures r.Success? && 0 <= i ==> r.value == s[i]
    ensures r.Success? && i < 0 ==> r.value == s[|s| + i]
  {
    if 0 <= i < |s| then Success(s[i])
    else if -|s| <= i < 0 then Success(s[|s| + i])
    else Failure(IndexOutOfRange)
  }
}
