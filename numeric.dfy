/**
 * Math.round and Math.ceil applied to a quotient of integers, as the
 * modelled code uses them on millisecond and byte counts.
 */
module Numeric {

  /** `Math.round(a / b)`: the nearest integer, halves rounded up. */
  function RoundDiv(a: int, b: int): (r: int)
    requires b > 0
    ensures -b <= 2 * (a - r * b) < b
    ensures a >= 0 ==> r >= 0
  {
    var q := (2 * a + b) / (2 * b);
    assert (2 * a + b) == q * (2 * b) + (2 * a + b) % (2 * b);
    q
  }

  /** `Math.ceil(a / b)`: the least integer not below the quotient. */
  function CeilDiv(a: int, b: int): (r: int)
    requires b > 0
    ensures (r - 1) * b < a <= r * b
  {
    var q := (-a) / b;
    assert -a == q * b + (-a) % b;
    -q
  }

  /** A positive multiple of `b` is at least `b`. */
  lemma MultipleAtLeast(d: int, b: int)
    requires d >= 1 && b > 0
    ensures d * b >= b
  {
    assert d * b == b + (d - 1) * b;
  }

  /** A rounded quotient is determined by the nearness property alone. */
  lemma RoundDivUnique(a: int, b: int, r: int)
    requires b > 0 && -b <= 2 * (a - r * b) < b
    ensures r == RoundDiv(a, b)
  {
    var q := RoundDiv(a, b);
    if r < q {
      MultipleAtLeast(q - r, b);
      assert false;
    } else if r > q {
      MultipleAtLeast(r - q, b);
      assert false;
    }
  }
}
