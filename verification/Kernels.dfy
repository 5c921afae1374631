/** The task kernels: the n-th prime by trial division, and the power-of-two test. */
module Kernels {
  import opened Powers

  predicate IsPrime(p: int) {
    p >= 2 && forall d :: 2 <= d < p ==> p % d != 0
  }

  /** Number of primes up to `k`. */
  function PrimeCount(k: nat): nat {
    if k == 0 then 0 else PrimeCount(k - 1) + if IsPrime(k) then 1 else 0
  }

  lemma PositiveProduct(a: nat, b: nat)
    requires a >= 1 && b >= 1
    ensures a * b >= 1
  {
  }

  /** Product of the primes up to `k`. */
  function PrimeProduct(k: nat): (p: nat)
    ensures p >= 1
  {
    if k == 0 then 1
    else if IsPrime(k) then
      PositiveProduct(k, PrimeProduct(k - 1));
      k * PrimeProduct(k - 1)
    else PrimeProduct(k - 1)
  }

  predicate Divides(d: nat, n: nat)
    requires d > 0
  {
    n % d == 0
  }

  lemma BigMultiple(d: int, x: int)
    requires d > 0 && x != 0
    ensures d * x >= d || d * x <= -d
  {
    if x >= 1 {
      assert d * x >= d;
    } else {
      assert d * x <= -d;
    }
  }

  lemma Distribute(d: int, a: int, b: int)
    ensures d * (a - b) == d * a - d * b
  {
  }

  /** Quotient and remainder are unique. */
  lemma Remainder(d: nat, q: nat, r: nat)
    requires r < d
    ensures (d * q + r) % d == r
  {
    var n := d * q + r;
    var x := q - n / d;
    assert n == d * (n / d) + n % d;
    assert d * x == n % d - r by { Distribute(d, q, n / d); }
    if x != 0 {
      BigMultiple(d, x);
    }
  }

  lemma MultipleDivides(d: nat, q: nat)
    requires d > 0
    ensures Divides(d, d * q)
  {
    Remainder(d, q, 0);
  }

  lemma DividesProduct(d: nat, a: nat, b: nat)
    requires d > 0 && Divides(d, a)
    ensures Divides(d, b * a)
  {
    var q := a / d;
    assert a == d * q;
    assert b * a == d * (b * q);
    MultipleDivides(d, b * q);
  }

  lemma DividesTransitive(a: nat, b: nat, c: nat)
    requires a > 0 && b > 0 && Divides(a, b) && Divides(b, c)
    ensures Divides(a, c)
  {
    var q := c / b;
    assert c == q * b;
    DividesProduct(a, b, q);
  }

  lemma NoDivisorOfSuccessor(d: nat, n: nat)
    requires d >= 2 && Divides(d, n)
    ensures !Divides(d, n + 1)
  {
    Remainder(d, n / d, 1);
    assert n + 1 == d * (n / d) + 1;
  }

  lemma {:induction false} PrimesDivideProduct(p: nat, k: nat)
    requires IsPrime(p) && p <= k
    ensures Divides(p, PrimeProduct(k))
    decreases k
  {
    if p == k {
      MultipleDivides(k, PrimeProduct(k - 1));
    } else {
      PrimesDivideProduct(p, k - 1);
      DividesProduct(p, PrimeProduct(k - 1), k);
    }
  }

  lemma {:induction false} PrimeFactor(n: nat) returns (p: nat)
    requires n >= 2
    ensures IsPrime(p) && p <= n && Divides(p, n)
    decreases n
  {
    if IsPrime(n) {
      p := n;
      MultipleDivides(n, 1);
    } else {
      var d :| 2 <= d < n && n % d == 0;
      p := PrimeFactor(d);
      DividesTransitive(p, d, n);
    }
  }

  /** Euclid: beyond `k` there is a prime, at most one more than the product of the primes up to `k`. */
  lemma Euclid(k: nat) returns (p: nat)
    ensures IsPrime(p) && k < p <= PrimeProduct(k) + 1
  {
    p := PrimeFactor(PrimeProduct(k) + 1);
    if p <= k {
      PrimesDivideProduct(p, k);
      NoDivisorOfSuccessor(p, PrimeProduct(k));
    }
  }

  lemma MulMonotone(a: nat, b: nat, c: nat, d: nat)
    requires a <= b && c <= d
    ensures a * c <= b * d
  {
    assert a * c <= b * c;
    assert b * c <= b * d;
  }

  lemma TwiceProduct(k: nat, p: nat)
    ensures 2 * (k * p) == k * (2 * p)
  {
  }

  /** With `c` primes up to `k`, their product stays below 2^(2^c). */
  lemma {:induction false} ProductBound(k: nat)
    ensures 2 * PrimeProduct(k) <= Pow2(Pow2(PrimeCount(k)))
  {
    if k == 0 {
    } else {
      ProductBound(k - 1);
      if IsPrime(k) {
        var c := PrimeCount(k - 1);
        var p := Euclid(k - 1);
        var b := Pow2(Pow2(c));
        assert k <= PrimeProduct(k - 1) + 1 <= b;
        MulMonotone(k, b, 2 * PrimeProduct(k - 1), b);
        TwiceProduct(k, PrimeProduct(k - 1));
        Pow2Add(Pow2(c), Pow2(c));
        assert Pow2(c + 1) == Pow2(c) + Pow2(c);
      }
    }
  }

  /** The n-th prime is at most 2^(2^(n-1)). */
  function NthBound(n: nat): nat
    requires n >= 1
  {
    Pow2(Pow2(n - 1))
  }

  lemma {:induction false} CountMonotone(a: nat, b: nat)
    requires a <= b
    ensures PrimeCount(a) <= PrimeCount(b)
    decreases b
  {
    if a < b {
      CountMonotone(a, b - 1);
    }
  }

  /** While fewer than `n` primes have been seen, the search is below the bound. */
  lemma SearchBelowBound(candidate: nat, n: nat)
    requires PrimeCount(candidate) < n
    ensures candidate < NthBound(n)
  {
    var c := PrimeCount(candidate);
    var p := Euclid(candidate);
    ProductBound(candidate);
    Pow2Monotone(c, n - 1);
    Pow2Monotone(Pow2(c), Pow2(n - 1));
  }

  /** `p` is the n-th prime. */
  predicate IsNthPrime(n: nat, p: nat) {
    IsPrime(p) && PrimeCount(p) == n
  }

  /** Trial division; the loops are those of the worker's kernel. */
  method FindNthPrime(n: int) returns (candidate: nat)
    ensures n <= 0 ==> candidate == 1
    ensures n >= 1 ==> IsNthPrime(n, candidate)
    ensures n >= 1 ==> candidate <= NthBound(n)
  {
    var count := 0;
    candidate := 1;
    assert PrimeCount(1) == 0 by { assert PrimeCount(0) == 0; }
    while count < n
      invariant candidate >= 1 && count == PrimeCount(candidate)
      invariant n <= 0 ==> candidate == 1
      invariant n >= 1 ==> count <= n
      invariant n >= 1 && count == n ==> IsPrime(candidate)
      invariant count >= 1 && count == n ==> candidate <= NthBound(n)
      decreases if n >= 1 then NthBound(n) - candidate else 0
    {
      SearchBelowBound(candidate, n);
      candidate := candidate + 1;
      var isPrime := true;
      var i := 2;
      while i < candidate
        invariant 2 <= i
        invariant isPrime ==> forall d :: 2 <= d < i && d < candidate ==> candidate % d != 0
        invariant !isPrime ==> !IsPrime(candidate)
        decreases candidate - i
      {
        if candidate % i == 0 {
          isPrime := false;
          break;
        }
        i := i + 1;
      }
      if isPrime {
        count := count + 1;
      }
    }
  }

  /** The n-th prime grows with n. */
  lemma NthPrimeIncreasing(m: nat, n: nat, p: nat, q: nat)
    requires m < n && IsNthPrime(m, p) && IsNthPrime(n, q)
    ensures p < q
  {
    if q <= p {
      CountMonotone(q, p);
    }
  }

  /** There is only one n-th prime. */
  lemma NthPrimeUnique(n: nat, p: nat, q: nat)
    requires IsNthPrime(n, p) && IsNthPrime(n, q)
    ensures p == q
  {
    if p < q {
      CountMonotone(p, q - 1);
    } else if q < p {
      CountMonotone(q, p - 1);
    }
  }

  /** Every prime is hit: the search for the c-th prime, c being the number of primes up to `p`, returns `p`. */
  lemma EveryPrimeIsHit(p: nat, found: nat)
    requires IsPrime(p) && IsNthPrime(PrimeCount(p), found)
    ensures PrimeCount(p) >= 1 && found == p
  {
    NthPrimeUnique(PrimeCount(p), p, found);
  }

  // ---- n & (n - 1) ----

  /** Bitwise and of non-negative integers, bit by bit. */
  function BitAnd(a: nat, b: nat): nat {
    if a == 0 || b == 0 then 0
    else 2 * BitAnd(a / 2, b / 2) + if a % 2 == 1 && b % 2 == 1 then 1 else 0
  }

  function Bit(a: nat, k: nat): nat {
    if k == 0 then a % 2 else Bit(a / 2, k - 1)
  }

  lemma {:induction false} ZeroBits(k: nat)
    ensures Bit(0, k) == 0
  {
    if k == 0 {
    } else {
      ZeroBits(k - 1);
    }
  }

  /** BitAnd has a bit set exactly where both operands have it. */
  lemma {:induction false} BitAndBits(a: nat, b: nat, k: nat)
    ensures Bit(BitAnd(a, b), k) == 1 <==> Bit(a, k) == 1 && Bit(b, k) == 1
    decreases k
  {
    if a == 0 || b == 0 {
      ZeroBits(k);
    } else if k > 0 {
      var h := BitAnd(a / 2, b / 2);
      assert BitAnd(a, b) / 2 == h;
      BitAndBits(a / 2, b / 2, k - 1);
    }
  }

  lemma {:induction false} BitAndSelf(a: nat)
    ensures BitAnd(a, a) == a
  {
    if a == 0 {
    } else {
      BitAndSelf(a / 2);
    }
  }

  ghost predicate PowerOfTwo(n: int) {
    exists k: nat :: n == Pow2(k)
  }

  lemma DoubledPower(m: nat)
    ensures PowerOfTwo(2 * m) <==> PowerOfTwo(m)
  {
    if PowerOfTwo(m) {
      var k: nat :| m == Pow2(k);
      assert 2 * m == Pow2(k + 1);
    }
    if PowerOfTwo(2 * m) {
      var k: nat :| 2 * m == Pow2(k);
      assert m == Pow2(k - 1);
    }
  }

  lemma OddIsNoPower(m: nat)
    requires m > 0
    ensures !PowerOfTwo(2 * m + 1)
  {
    forall k: nat
      ensures 2 * m + 1 != Pow2(k)
    {
      assert k > 0 ==> Pow2(k) == 2 * Pow2(k - 1);
    }
  }

  /** Clearing the lowest set bit leaves nothing exactly for the powers of two. */
  lemma {:induction false} LowestBit(n: nat)
    requires n > 0
    ensures BitAnd(n, n - 1) == 0 <==> PowerOfTwo(n)
    decreases n
  {
    var m := n / 2;
    if n % 2 == 0 {
      LowestBit(m);
      assert (n - 1) / 2 == m - 1;
      assert BitAnd(n, n - 1) == 2 * BitAnd(m, m - 1);
      DoubledPower(m);
      assert n == 2 * m;
    } else if n == 1 {
      assert 1 == Pow2(0);
    } else {
      assert (n - 1) / 2 == m;
      BitAndSelf(m);
      assert BitAnd(n, n - 1) == 2 * m;
      OddIsNoPower(m);
      assert n == 2 * m + 1;
    }
  }

  /** The worker's test, for every integer. */
  predicate IsPowerOfTwo(n: int) {
    n > 0 && BitAnd(n, n - 1) == 0
  }

  lemma IsPowerOfTwoCorrect(n: int)
    ensures IsPowerOfTwo(n) <==> PowerOfTwo(n)
  {
    if n > 0 {
      LowestBit(n);
    }
  }
}
