/**
 * Divisibility facts the storage arithmetic relies on, proved once from the
 * definition of `/` and `%` so that the callers stay linear.
 */
module Arith {

  /** A product with a factor of magnitude at least one is at least as large as the other factor. */
  lemma {:induction false} ProductAtLeast(d: nat, b: nat)
    requires d >= 1
    ensures d * b >= b
    decreases d
  {
    if d > 1 {
      ProductAtLeast(d - 1, b);
      assert d * b == (d - 1) * b + b;
    }
  }

  /** Quotient and remainder are determined by any decomposition with a remainder in range. */
  lemma DivModUnique(x: int, m: int, q: int, r: int)
    requires m > 0 && x == q * m + r && 0 <= r < m
    ensures x / m == q && x % m == r
  {
    var q', r' := x / m, x % m;
    assert x == q' * m + r';
    assert (q - q') * m == r' - r;
    if q - q' >= 1 {
      ProductAtLeast(q - q', m);
      assert false;
    } else if q' - q >= 1 {
      ProductAtLeast(q' - q, m);
      assert false;
    }
  }

  /** A multiple of m leaves no remainder. */
  lemma MultipleMod(k: int, m: int)
    requires m > 0
    ensures (k * m) % m == 0
  {
    DivModUnique(k * m, m, k, 0);
  }

  /** Every x splits into a multiple of m and the remainder. */
  lemma Split(x: int, m: int)
    requires m > 0
    ensures x == (x / m) * m + x % m && 0 <= x % m < m
  {
  }

  /** Divisibility is transitive. */
  lemma DividesTrans(a: int, b: int, c: int)
    requires a > 0 && b > 0 && b % a == 0 && c % b == 0
    ensures c % a == 0
  {
    Split(b, a);
    Split(c, b);
    var i, j := b / a, c / b;
    assert c == (j * i) * a by {
      assert c == j * b;
      assert b == i * a;
    }
    MultipleMod(j * i, a);
  }

  /** A common divisor of x and m divides the remainder of x by m. */
  lemma RemainderKeepsDivisor(x: int, m: int, a: int)
    requires a > 0 && m > 0 && x % a == 0 && m % a == 0
    ensures (x % m) % a == 0
  {
    Split(x, a);
    Split(m, a);
    Split(x, m);
    var i, j, q := x / a, m / a, x / m;
    assert x % m == x - q * m;
    assert x % m == (i - q * j) * a by {
      assert x == i * a;
      assert m == j * a;
      assert q * m == (q * j) * a;
    }
    MultipleMod(i - q * j, a);
  }

  /** A positive multiple of a is at least a. */
  lemma PositiveMultipleAtLeast(x: int, a: int)
    requires a > 0 && x > 0 && x % a == 0
    ensures x >= a
  {
    Split(x, a);
    var k := x / a;
    assert x == k * a;
    ProductAtLeast(k, a);
  }

  /** Powers of two: 1, 2, 4, 8, ... */
  predicate IsPow2(n: nat)
    decreases n
  {
    n == 1 || (n > 1 && n % 2 == 0 && IsPow2(n / 2))
  }

  /** Of two powers of two, the smaller divides the larger. */
  lemma {:induction false} Pow2Divides(a: nat, b: nat)
    requires IsPow2(a) && IsPow2(b) && a <= b
    ensures b % a == 0
    decreases b
  {
    if a == 1 {
      DivModUnique(b, 1, b, 0);
    } else {
      assert a > 1 && b > 1;
      Pow2Divides(a / 2, b / 2);
      Split(b / 2, a / 2);
      var k := (b / 2) / (a / 2);
      assert b == k * a by {
        assert b / 2 == k * (a / 2);
        assert b == 2 * (b / 2) && a == 2 * (a / 2);
      }
      MultipleMod(k, a);
    }
  }
}
