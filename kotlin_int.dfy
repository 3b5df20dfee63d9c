/** The parts of Kotlin's 32-bit `Int` arithmetic that the view model relies on. */
module KotlinInt {

  const INT_MIN: int := -0x8000_0000
  const INT_MAX: int := 0x7fff_ffff
  const INT_RANGE: int := 0x1_0000_0000

  predicate IsInt(n: int) {
    INT_MIN <= n <= INT_MAX
  }

  function Abs(n: int): nat {
    if n < 0 then -n else n
  }

  /** `n++` on an `Int`: the 32-bit value congruent to `n + 1`, which is `n + 1` itself below `Int.MAX_VALUE`. */
  function Inc(n: int): (r: int)
    requires IsInt(n)
    ensures IsInt(r)
    ensures (r - (n + 1)) % INT_RANGE == 0
    ensures n < INT_MAX ==> r == n + 1
  {
    if n == INT_MAX then INT_MIN else n + 1
  }

  /** `a % b` on Kotlin integers: the remainder of the division truncated toward zero, so it takes the sign
      of `a`; `b == 0` throws in Kotlin, so callers test for it first. */
  function Rem(a: int, b: int): (r: int)
    requires b != 0
    ensures Abs(r) < Abs(b)
    ensures a >= 0 ==> r >= 0
    ensures a <= 0 ==> r <= 0
    ensures exists q :: a == q * b + r
  {
    var d := Abs(b);
    var r := if a >= 0 then a % d else -((-a) % d);
    RemDecomposes(a, b, d, r);
    r
  }

  /** The truncated quotient and remainder put `a` back together. */
  lemma RemDecomposes(a: int, b: int, d: nat, r: int)
    requires b != 0 && d == Abs(b)
    requires r == if a >= 0 then a % d else -((-a) % d)
    ensures exists q :: a == q * b + r
  {
    var q := if a >= 0 then a / d else -((-a) / d);
    if a >= 0 {
      assert a == (a / d) * d + a % d;
    } else {
      assert -a == ((-a) / d) * d + (-a) % d;
    }
    assert a == q * d + r;
    SignedProduct(q, b, d);
    assert a == (if b < 0 then -q else q) * b + r;
  }

  lemma SignedProduct(q: int, b: int, d: nat)
    requires b != 0 && d == Abs(b)
    ensures q * d == (if b < 0 then -q else q) * b
  {
  }

  /** The remainder is the only value below the divisor that completes a multiple of it to `a`. */
  lemma RemUnique(a: nat, b: int, q: nat, r: nat)
    requires b != 0
    requires a == q * Abs(b) + r && r < Abs(b)
    ensures Rem(a, b) == r
  {
    var d := Abs(b);
    var q', r' := a / d, a % d;
    assert a == q' * d + r';
    assert (q - q') * d == r' - r;
    if q > q' {
      MulAtLeast(q - q', d);
    } else if q < q' {
      MulAtLeast(q' - q, d);
    }
  }

  lemma {:induction false} MulAtLeast(x: int, d: int)
    requires x >= 1 && d > 0
    ensures x * d >= d
  {
    if x > 1 {
      MulAtLeast(x - 1, d);
      assert x * d == (x - 1) * d + d;
    }
  }

  /** A count of `k` whole blocks of `b` leaves remainder zero. */
  lemma MultipleHasNoRemainder(k: nat, b: int)
    requires b != 0
    ensures Rem(k * Abs(b), b) == 0
  {
    RemUnique(k * Abs(b), b, k, 0);
  }

  /** A count below the divisor is its own remainder. */
  lemma SmallRemainder(a: nat, b: int)
    requires b != 0 && a < Abs(b)
    ensures Rem(a, b) == a
  {
    RemUnique(a, b, 0, a);
  }
}
