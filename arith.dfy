/** Integer operations of C++ that differ from Dafny's mathematical ones. */
module CppArith {

  /** The C++ remainder `a % n` on `int`: the quotient truncates toward zero, so the
      remainder takes the sign of `a` (Dafny's `%` is Euclidean and never negative). It is
      defined here by repeated subtraction of `n` from `|a|`. */
  function TruncRem(a: int, n: int): (r: int)
    requires n > 0
    ensures a >= 0 ==> 0 <= r < n
    ensures a < 0 ==> -n < r <= 0
    decreases if a < 0 then 1 - 2 * a else 2 * a
  {
    if a < 0 then -TruncRem(-a, n)
    else if a < n then a
    else TruncRem(a - n, n)
  }

  /** On a non-negative `a` the C++ remainder is the Euclidean one; on a negative `a` it is the
      negated remainder of `-a`. */
  lemma {:induction false} TruncRemIsMod(a: int, n: int)
    requires n > 0
    ensures TruncRem(a, n) == if a >= 0 then a % n else -((-a) % n)
    decreases if a < 0 then 1 - 2 * a else 2 * a
  {
    if a < 0 {
      TruncRemIsMod(-a, n);
    } else if a < n {
      ModUnique(a, n, 0, a);
    } else {
      TruncRemIsMod(a - n, n);
      ModShift(a - n, n);
    }
  }

  /** Adding `n` does not change the remainder by `n`. */
  lemma {:induction false} ModShift(a: int, n: int)
    requires n > 0
    ensures (a + n) % n == a % n
  {
    var q := a / n;
    assert a == q * n + a % n;
    assert a + n == (q + 1) * n + a % n;
    ModUnique(a + n, n, q + 1, a % n);
  }

  /** The C++ remainder is negative exactly when `a` is negative and not a multiple of `n`;
      on a non-negative `a` it agrees with the Euclidean one. */
  lemma {:induction false} TruncRemSign(a: int, n: int)
    requires n > 0
    ensures 0 <= TruncRem(a, n) <==> (a >= 0 || (-a) % n == 0)
    ensures a >= 0 ==> TruncRem(a, n) == a % n
  {
    TruncRemIsMod(a, n);
  }

  lemma {:induction false} MulAtLeast(x: int, n: int)
    requires x >= 1 && n > 0
    ensures x * n >= n
  {
    if x > 1 {
      MulAtLeast(x - 1, n);
      assert x * n == (x - 1) * n + n;
    }
  }

  /** The remainder is the unique `r` in `[0, n)` with `a == q * n + r`. */
  lemma {:induction false} ModUnique(a: int, n: int, q: int, r: int)
    requires n > 0 && 0 <= r < n && a == q * n + r
    ensures a % n == r
  {
    var q', r' := a / n, a % n;
    assert a == q' * n + r';
    assert (q - q') * n == r' - r;
    if q - q' >= 1 {
      MulAtLeast(q - q', n);
    } else if q' - q >= 1 {
      MulAtLeast(q' - q, n);
    }
  }

  /** Advancing a remainder by one with the C++ remainder gives the remainder of the successor. */
  lemma {:induction false} ModSucc(a: nat, n: int, r: int)
    requires n > 0 && r == a % n
    ensures TruncRem(r + 1, n) == (a + 1) % n
  {
    var q := a / n;
    assert a == q * n + r;
    if r + 1 < n {
      ModUnique(r + 1, n, 0, r + 1);
      ModUnique(a + 1, n, q, r + 1);
    } else {
      ModSuccWrap(a, n, q);
    }
  }

  lemma {:induction false} ModSuccWrap(a: nat, n: int, q: int)
    requires n > 0 && a == q * n + (n - 1)
    ensures TruncRem(n, n) == 0 && (a + 1) % n == 0
  {
    assert TruncRem(n, n) == TruncRem(0, n);
    assert a + 1 == (q + 1) * n + 0;
    ModUnique(a + 1, n, q + 1, 0);
  }

  /** Exact power `b^e` on natural numbers (the value `std::pow` is meant to compute). */
  function Pow(b: nat, e: nat): nat
  {
    if e == 0 then 1 else b * Pow(b, e - 1)
  }

  lemma {:induction false} PowPositive(b: nat, e: nat)
    requires b >= 1
    ensures Pow(b, e) >= 1
  {
    if e > 0 {
      PowPositive(b, e - 1);
    }
  }

  /** `d` is `2^k` for some `k`. */
  predicate IsPowerOfTwo(d: nat)
  {
    d == 1 || (d >= 2 && d % 2 == 0 && IsPowerOfTwo(d / 2))
  }

  lemma {:induction false} PowerOfTwoIsPow(d: nat)
    requires IsPowerOfTwo(d)
    ensures exists k: nat :: Pow(2, k) == d
  {
    if d == 1 {
      assert Pow(2, 0) == d;
    } else {
      PowerOfTwoIsPow(d / 2);
      var k: nat :| Pow(2, k) == d / 2;
      assert Pow(2, k + 1) == d;
    }
  }

  /** Conversion of a C++ `int` to `unsigned` (32 bits): negative values wrap around. */
  function ToUnsigned(v: int): (r: nat)
    requires -0x8000_0000 <= v < 0x8000_0000
    ensures r < 0x1_0000_0000
    ensures v >= 0 ==> r == v
    ensures v < 0 ==> r == v + 0x1_0000_0000
  {
    v % 0x1_0000_0000
  }
}
