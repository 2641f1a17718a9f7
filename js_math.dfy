/** JavaScript arithmetic as the pages apply it to whole numbers of minutes.
    Dafny's `/` and `%` are Euclidean; JavaScript's `%` keeps the sign of the
    dividend and `Math.round` rounds halves up, so both are written out. */
module JsMath {

  /** `Math.floor(a / b)` for a positive divisor. */
  function FloorDiv(a: int, b: int): (q: int)
    requires b > 0
    ensures q * b <= a < q * b + b
  {
    a / b
  }

  /** `a % b` for a positive divisor: the remainder has the sign of `a`. */
  function Rem(a: int, b: int): (r: int)
    requires b > 0
    ensures -b < r < b
    ensures a >= 0 ==> 0 <= r && FloorDiv(a, b) * b + r == a
    ensures a < 0 ==> r <= 0 && -(FloorDiv(-a, b) * b) + r == a
  {
    if a >= 0 then a % b
    else
      assert (-a) / b * b + (-a) % b == -a;
      -((-a) % b)
  }

  /** `Math.round(t / c)` for a positive divisor: the integer nearest to
      `t / c`, a half rounded up. */
  function RoundDiv(t: int, c: int): (r: int)
    requires c > 0
    ensures 2 * c * r - c <= 2 * t < 2 * c * r + c
  {
    var q := (2 * t + c) / (2 * c);
    assert 2 * t + c == 2 * c * q + (2 * t + c) % (2 * c);
    q
  }
}
