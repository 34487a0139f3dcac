/**
  Integer facts shared by the timer resolver and the NVM key encoder:
  powers of two and the division identities Dafny's solver does not find alone.
 */
module Arith {

  function Pow2(k: nat): (r: nat)
    ensures r >= 1
  {
    if k == 0 then 1 else 2 * Pow2(k - 1)
  }

  /** Whether n is a power of two, by repeated halving. */
  predicate IsPow2(n: nat)
    decreases n
  {
    n == 1 || (n >= 2 && n % 2 == 0 && IsPow2(n / 2))
  }

  /** The exponent of a power of two: IsPow2 holds exactly of the values of Pow2. */
  function Log2(n: nat): (k: nat)
    requires IsPow2(n)
    ensures Pow2(k) == n
    decreases n
  {
    if n == 1 then 0 else 1 + Log2(n / 2)
  }

  lemma {:induction false} Pow2IsPow2(k: nat)
    ensures IsPow2(Pow2(k))
  {
    if k > 0 {
      Pow2IsPow2(k - 1);
    }
  }

  lemma {:induction false} Pow2Add(a: nat, b: nat)
    ensures Pow2(a + b) == Pow2(a) * Pow2(b)
    decreases a
  {
    if a > 0 {
      Pow2Add(a - 1, b);
    }
  }

  lemma MulMono(x: nat, y: nat, b: nat)
    requires y <= x
    ensures y * b <= x * b
  {
    assert x * b == y * b + (x - y) * b;
  }

  /** a / b is at least c whenever b * c fits in a. */
  lemma DivLowerBound(a: nat, b: nat, c: nat)
    requires b > 0 && b * c <= a
    ensures a / b >= c
  {
    var q := a / b;
    assert a == q * b + a % b;
    assert a < (q + 1) * b;
    if q + 1 <= c {
      MulMono(c, q + 1, b);
    }
  }

  /** Quotient and remainder are the unique pair with k == d * x + y and 0 <= y < d. */
  lemma DivModUnique(k: nat, d: nat, x: nat, y: nat)
    requires d > 0 && y < d && k == d * x + y
    ensures k / d == x && k % d == y
  {
    var q := k / d;
    assert k == d * q + k % d;
    DivLowerBound(k, d, x);
    if q > x {
      MulMono(q, x + 1, d);
    }
  }

  /** a / b is exactly c when a is b * c. */
  lemma DivExact(a: nat, b: nat, c: nat)
    requires b > 0 && a == b * c
    ensures a / b == c
  {
    DivModUnique(a, b, c, 0);
  }

  lemma MulDistrib(b: nat, x: nat, y: nat)
    ensures b * (x + y) == b * x + b * y
  {
  }

  lemma MulAssoc(b: nat, m: nat, x: nat)
    ensures b * (m * x) == (b * m) * x
  {
  }

  /** Writing a / b in base m splits a into a multiple of b * m and a remainder below b * m. */
  lemma DigitSplit(a: nat, b: nat, m: nat)
    requires b > 0 && m > 0
    ensures a == (b * m) * ((a / b) / m) + (b * ((a / b) % m) + a % b)
    ensures b * ((a / b) % m) + a % b < b * m
  {
    var q, r := a / b, a % b;
    var q1, q0 := q / m, q % m;
    assert a == b * q + r;
    assert q == m * q1 + q0;
    MulDistrib(b, m * q1, q0);
    MulAssoc(b, m, q1);
    MulMono(m - 1, q0, b);
    MulDistrib(b, m - 1, 1);
  }

  /** Dividing by b and then by c is dividing by b * c. */
  lemma DivDiv(a: nat, b: nat, c: nat)
    requires b > 0 && c > 0
    ensures b * c > 0 && a / b / c == a / (b * c)
  {
    DigitSplit(a, b, c);
    DivModUnique(a, b * c, a / b / c, b * ((a / b) % c) + a % b);
  }

  /** The remainder modulo b * m splits into the remainder modulo b and b times the next digit. */
  lemma ModSplit(a: nat, b: nat, m: nat)
    requires b > 0 && m > 0
    ensures a % (b * m) == a % b + b * ((a / b) % m)
  {
    DigitSplit(a, b, m);
    DivModUnique(a, b * m, a / b / m, b * ((a / b) % m) + a % b);
  }

  /** For m > 0 the remainder k % m is the unique y in [0, m) with k == m * q + y, for any integer q. */
  lemma ModUniqueInt(k: int, m: int, q: int, y: int)
    requires m > 0 && 0 <= y < m && k == m * q + y
    ensures k % m == y
  {
    var d := q - k / m;
    assert m * d == k % m - y;
    if d >= 1 {
      assert m * d == m + m * (d - 1);
    } else if d <= -1 {
      assert m * d == -m + m * (d + 1);
    }
  }

  /** Facts about the remainder of an integer that a two's-complement wrap-around needs. */
  lemma RemainderFacts(m: nat, x: int)
    requires m > 0
    ensures (x % m) % m == x % m && (x % m - m) % m == x % m
    ensures 0 <= x < m ==> x % m == x
    ensures 0 <= x + m && x < 0 ==> x % m == x + m
  {
    ModUniqueInt(x % m, m, 0, x % m);
    ModUniqueInt(x % m - m, m, -1, x % m);
    if 0 <= x < m {
      ModUniqueInt(x, m, 0, x);
    } else if 0 <= x + m && x < 0 {
      ModUniqueInt(x, m, -1, x + m);
    }
  }
}
