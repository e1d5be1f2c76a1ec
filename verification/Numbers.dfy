/** Python's rounding. */
module Numbers {

  /** `n` is the integer nearest to `x`, the even one of two that are equally near. */
  predicate Nearest(x: real, n: int) {
    && x - 0.5 <= n as real <= x + 0.5
    && (n as real == x - 0.5 || n as real == x + 0.5 ==> n % 2 == 0)
  }

  /** `round(x)`: the nearest integer, ties going to the even one. */
  function RoundHalfEven(x: real): (n: int)
    ensures Nearest(x, n)
  {
    var low := x.Floor;
    var rest := x - low as real;
    if rest < 0.5 || (rest == 0.5 && low % 2 == 0) then low else low + 1
  }

  /** The least integer not below `x`. */
  function Ceiling(x: real): (n: int)
    ensures n as real - 1.0 < x <= n as real
  {
    -(-x).Floor
  }

  /** An integer is at least `c` after rounding exactly above `c - 1/2`, and at it where `c` is even. */
  lemma NearestAtLeast(x: real, n: int, c: int)
    requires Nearest(x, n)
    ensures n >= c <==> x > c as real - 0.5 || (x == c as real - 0.5 && c % 2 == 0)
  {
    if n < c {
      assert n as real <= c as real - 1.0;
      assert x == c as real - 0.5 ==> n == c - 1;
    } else {
      assert n as real >= c as real;
      assert x == c as real - 0.5 ==> n == c;
    }
  }
}
