/** Facts about integer division that the index and step arithmetic relies on. */
module Arith {

  lemma MulAtLeast(d: int, n: int)
    requires d >= 1 && n > 0
    ensures d * n >= n
  {
  }

  /** The remainder is the one `r` in [0, n) that differs from `x` by a multiple of `n`. */
  lemma ModUnique(x: int, n: int, q: int, r: int)
    requires n > 0 && 0 <= r < n && x == q * n + r
    ensures x % n == r
  {
    var q0 := x / n;
    assert x == q0 * n + x % n;
    if q0 > q {
      MulAtLeast(q0 - q, n);
    } else if q0 < q {
      MulAtLeast(q - q0, n);
    }
  }

  /** An exact division multiplies back to the dividend. */
  lemma DivExact(n: nat, k: nat)
    requires k > 0 && n % k == 0
    ensures k * (n / k) == n
  {
    assert n == (n / k) * k + n % k;
  }

  /** Python's `a // b` for a non-zero `b`: the quotient rounded toward minus infinity
      (Dafny's `/` rounds so that the remainder is non-negative, which differs when `b`
      is negative). */
  function FloorDiv(a: int, b: int): (q: int)
    requires b != 0
    ensures b > 0 ==> q * b <= a < q * b + b
    ensures b < 0 ==> q * b >= a > q * b + b
  {
    if b > 0 then a / b
    else
      var q := (-a) / (-b);
      assert -a == q * (-b) + (-a) % (-b);
      q
  }

  /** Dividing a number by itself gives 1. */
  lemma FloorDivSelf(b: int)
    requires b != 0
    ensures FloorDiv(b, b) == 1
  {
    var q := FloorDiv(b, b);
    if q > 1 {
      MulAtLeast(q - 1, if b > 0 then b else -b);
    } else if q < 1 {
      MulAtLeast(1 - q, if b > 0 then b else -b);
    }
  }
}
