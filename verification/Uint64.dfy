/** Unsigned 64-bit arithmetic as the builder uses it: unchecked, wrapping at 2^64. */
module Uint64 {

  const TWO64: nat := 0x1_0000_0000_0000_0000

  function U64(x: int): (r: nat)
    ensures r < TWO64
    ensures 0 <= x < TWO64 ==> r == x
  {
    x % TWO64
  }

  /** Reducing an operand first makes no difference. */
  lemma Reduce(x: int, y: int)
    ensures U64(U64(x) + y) == U64(x + y)
  {
    var q := x / TWO64;
    var p := (x + y) / TWO64;
    assert U64(x) == x - TWO64 * q && U64(x + y) == x + y - TWO64 * p;
    assert U64(x) + y == TWO64 * (p - q) + U64(x + y);
  }

  /** Sums of wrapped numbers wrap to the same. */
  lemma AddWrapped(x: int, y: int)
    ensures U64(U64(x) + U64(y)) == U64(x + y)
  {
    Reduce(x, U64(y));
    Reduce(y, x);
  }

  /** The quotient rounded up. */
  function CeilDiv(a: nat, b: nat): nat
    requires b > 0
  {
    (a + b - 1) / b
  }

  lemma CeilDivBounds(a: nat, b: nat)
    requires b > 0
    ensures var r := CeilDiv(a, b); r * b >= a && (r > 0 ==> (r - 1) * b < a)
  {
  }

  function FloorDiv(a: nat, b: nat): (r: nat)
    requires b > 0
    ensures r * b <= a < (r + 1) * b
  {
    a / b
  }

  lemma MulCancel(x: int, y: int, b: nat)
    requires x * b < y * b
    ensures x < y
  {
    assert (y - x) * b > 0;
  }

  lemma MulAssoc(x: int, y: int, z: int)
    ensures (x * y) * z == x * (y * z)
  {
  }

  lemma ProductZero(x: int, y: int)
    ensures x * y == 0 <==> x == 0 || y == 0
  {
  }

  /** CeilDiv is the least number whose b-fold reaches a. */
  lemma CeilDivLeast(a: nat, b: nat, r: nat)
    requires b > 0 && r * b >= a
    ensures CeilDiv(a, b) <= r
  {
    var c := CeilDiv(a, b);
    CeilDivBounds(a, b);
    if c > 0 { MulCancel(c - 1, r, b); }
  }

  lemma CeilDivMono(a: nat, a': nat, b: nat)
    requires b > 0 && a <= a'
    ensures CeilDiv(a, b) <= CeilDiv(a', b)
  {
    CeilDivBounds(a', b);
    CeilDivLeast(a, b, CeilDiv(a', b));
  }

  /** The ceiling of a sum is at most the sum of the ceilings. */
  lemma CeilDivSum(a: nat, a': nat, b: nat)
    requires b > 0
    ensures CeilDiv(a + a', b) <= CeilDiv(a, b) + CeilDiv(a', b)
  {
    var r, r' := CeilDiv(a, b), CeilDiv(a', b);
    CeilDivBounds(a, b);
    CeilDivBounds(a', b);
    assert (r + r') * b == r * b + r' * b;
    CeilDivLeast(a + a', b, r + r');
  }

  lemma {:induction false} CeilDivTimes(k: nat, a: nat, b: nat)
    requires b > 0
    ensures CeilDiv(k * a, b) <= k * CeilDiv(a, b)
  {
    if k > 0 {
      CeilDivTimes(k - 1, a, b);
      assert k * a == (k - 1) * a + a && k * CeilDiv(a, b) == (k - 1) * CeilDiv(a, b) + CeilDiv(a, b);
      CeilDivSum((k - 1) * a, a, b);
    } else {
      assert CeilDiv(0, b) == 0 by { CeilDivLeast(0, b, 0); }
    }
  }
}
