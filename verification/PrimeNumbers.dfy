/** The trial division and the search for the m-th prime of IPC-2/prime_calculator.cpp. */
module PrimeNumbers {

  import opened Ints

  ghost predicate Divides(d: int, n: int)
    requires d > 0
  {
    n % d == 0
  }

  /** No number strictly between 1 and n divides n. */
  ghost predicate Prime(n: int) {
    n >= 2 && forall d :: 2 <= d < n ==> !Divides(d, n)
  }

  // ----- Divisibility

  lemma {:induction false} DividesTimes(d: int, k: int)
    requires d > 0
    ensures Divides(d, d * k)
  {
    ModuloUnique(d * k, d, k, 0);
  }

  /** Quotient and remainder are unique. */
  lemma {:induction false} ModuloUnique(n: int, d: int, q: int, r: int)
    requires d > 0 && n == d * q + r && 0 <= r < d
    ensures n / d == q && n % d == r
  {
    var e := n / d - q;
    assert d * e == r - n % d by {
      assert n == d * (n / d) + n % d;
      assert d * e == d * (n / d) - d * q;
    }
    FarMultiple(d, e);
  }

  lemma {:induction false} FarMultiple(d: int, k: int)
    requires d > 0
    ensures k >= 1 ==> d * k >= d
    ensures k <= -1 ==> d * k <= -d
  {
    assert d * k == d + d * (k - 1) == d * (k + 1) - d;
  }

  lemma {:induction false} DividesDifference(d: int, a: int, b: int)
    requires d > 0 && Divides(d, a) && Divides(d, b)
    ensures Divides(d, a - b)
  {
    assert a - b == d * (a / d - b / d);
    DividesTimes(d, a / d - b / d);
  }

  lemma {:induction false} DividesMultiple(d: int, a: int, k: int)
    requires d > 0 && Divides(d, a)
    ensures Divides(d, a * k)
  {
    assert a * k == d * (a / d * k);
    DividesTimes(d, a / d * k);
  }

  lemma {:induction false} DivisorIsSmaller(d: int, n: int)
    requires d > 0 && n > 0 && Divides(d, n)
    ensures 1 <= n / d && d <= n && n == d * (n / d)
  {
    assert n == d * (n / d);
    FarMultiple(d, n / d);
  }

  // ----- Trial division

  /** A divisor at or above the root has a cofactor below it. */
  lemma {:induction false} Cofactor(d: int, n: int, root: int) returns (e: int)
    requires n >= 2 && 2 <= root <= d < n && root * root > n && Divides(d, n)
    ensures 2 <= e < root && Divides(e, n)
  {
    e := n / d;
    DivisorIsSmaller(d, n);
    DividesTimes(e, d);
    assert n == e * d;
    if e >= root {
      Products(root, d, root, e);
    }
  }

  /** If no i with i*i <= n divides n, no number below n does. */
  lemma {:induction false} TrialDivisionSuffices(n: int, root: int)
    requires n >= 2 && root >= 2 && root * root > n
    requires forall d :: 2 <= d < root ==> !Divides(d, n)
    ensures Prime(n)
  {
    forall d | 2 <= d < n ensures !Divides(d, n) {
      if d >= root && Divides(d, n) {
        var e := Cofactor(d, n, root);
      }
    }
  }

  lemma {:induction false} Products(a: int, b: int, c: int, d: int)
    requires 0 <= a <= b && 0 <= c <= d
    ensures a * c <= b * d
  {
    assert b * d - a * c == b * (d - c) + (b - a) * c;
  }

  lemma {:induction false} SquareOrder(a: int, b: int)
    requires a >= 0 && b >= 0
    ensures a <= b <==> a * a <= b * b
  {
    if a <= b {
      Products(a, b, a, b);
    } else {
      Products(b + 1, a, b + 1, a);
      assert (b + 1) * (b + 1) == b * b + 2 * b + 1;
    }
  }

  /** The first square above `num` is an int exactly if `num` is below the largest square that is an int. */
  lemma {:induction false} FirstSquareAbove(num: int, i: int)
    requires i >= 2 && i * i > num && (i == 2 || (i - 1) * (i - 1) <= num)
    ensures num < 46340 * 46340 ==> i * i <= INT_MAX
    ensures num <= INT_MAX ==> (i * i > INT_MAX <==> num >= 46340 * 46340)
  {
    SquareOrder(i, 46340);
    SquareOrder(46341, i);
    SquareOrder(46340, i - 1);
  }

  /**
    `is_prime`. `largest` is the largest value of i*i that is computed: it fits an int exactly unless
    num is a prime of at least 46340*46340.
   */
  method IsPrime(num: int) returns (prime: bool, ghost largest: int)
    ensures prime <==> Prime(num)
    ensures num < 46340 * 46340 ==> largest <= INT_MAX
    ensures num <= INT_MAX ==> (largest > INT_MAX <==> Prime(num) && num >= 46340 * 46340)
  {
    largest := 0;
    if num <= 1 {
      return false, largest;
    }
    var i := 2;
    largest := i * i;
    ghost var previous := 1;
    while i * i <= num
      invariant 2 <= i && largest == i * i
      invariant previous == i - 1 && (i == 2 || previous * previous <= num)
      invariant forall d :: 2 <= d < i ==> !Divides(d, num)
      decreases num - i
    {
      assert i < num by {
        Products(2, i, i, i);
      }
      if num % i == 0 {
        assert Divides(i, num);
        return false, largest;
      }
      previous := i;
      i := i + 1;
      largest := i * i;
    }
    TrialDivisionSuffices(num, i);
    FirstSquareAbove(num, i);
    prime := true;
  }

  // ----- Infinitely many primes

  function Factorial(n: nat): nat {
    if n == 0 then 1 else n * Factorial(n - 1)
  }

  lemma {:induction false} FactorialMultiple(d: int, n: nat)
    requires 1 <= d <= n
    ensures Divides(d, Factorial(n)) && Factorial(n) >= 1
  {
    if d == n {
      DividesTimes(d, Factorial(n - 1));
      if n > 1 {
        FactorialMultiple(1, n - 1);
        FarMultiple(n, Factorial(n - 1));
      }
    } else {
      FactorialMultiple(d, n - 1);
      DividesMultiple(d, Factorial(n - 1), n);
      FarMultiple(n, Factorial(n - 1));
    }
  }

  /** The smallest divisor of a number is prime. */
  lemma {:induction false} PrimeDivisor(n: int, d: int) returns (p: int)
    requires n >= 2 && 2 <= d <= n
    requires forall e :: 2 <= e < d ==> !Divides(e, n)
    ensures Prime(p) && Divides(p, n)
    decreases n - d
  {
    if Divides(d, n) {
      p := d;
      assert n == d * (n / d);
      forall e | 2 <= e < d ensures !Divides(e, d) {
        if Divides(e, d) {
          DividesMultiple(e, d, n / d);
        }
      }
    } else {
      if d == n {
        DividesTimes(n, 1);
      }
      p := PrimeDivisor(n, d + 1);
    }
  }

  /** Euclid: beyond every number there is a prime. */
  lemma {:induction false} PrimeBeyond(n: nat) returns (p: int)
    ensures Prime(p) && p > n
  {
    if n == 0 {
      p := PrimeDivisor(2, 2);
    } else {
      FactorialMultiple(1, n);
      p := PrimeDivisor(Factorial(n) + 1, 2);
      if p <= n {
        FactorialMultiple(p, n);
        DividesDifference(p, Factorial(n) + 1, Factorial(n));
        SmallRemainder(1, p);
      }
    }
  }

  lemma {:induction false} SmallRemainder(r: int, d: int)
    requires 0 <= r < d
    ensures r % d == r
  {
  }

  // ----- Counting primes

  /** The number of primes up to n. */
  ghost function PrimesUpTo(n: int): nat
    decreases n
  {
    if n < 2 then 0 else PrimesUpTo(n - 1) + if Prime(n) then 1 else 0
  }

  lemma {:induction false} PrimesUpToMonotone(a: int, b: int)
    requires a <= b
    ensures PrimesUpTo(a) <= PrimesUpTo(b)
    decreases b - a
  {
    if a < b {
      PrimesUpToMonotone(a, b - 1);
    }
  }

  /** Up to a larger number there are more primes if the larger one is prime. */
  lemma {:induction false} PrimesUpToStrict(a: int, p: int)
    requires a < p && Prime(p)
    ensures PrimesUpTo(a) < PrimesUpTo(p)
  {
    PrimesUpToMonotone(a, p - 1);
  }

  /** For every m there is a number up to which there are at least m primes. */
  lemma {:induction false} EnoughPrimes(m: nat) returns (bound: nat)
    ensures PrimesUpTo(bound) >= m
  {
    if m == 0 {
      bound := 0;
    } else {
      var b := EnoughPrimes(m - 1);
      bound := PrimeBeyond(b);
      PrimesUpToStrict(b, bound);
    }
  }

  /** p is the m-th prime: it is prime and there are exactly m primes up to it. */
  ghost predicate IsMthPrime(p: int, m: nat) {
    Prime(p) && PrimesUpTo(p) == m
  }

  /** Some prime below n is at least the largest square that is an int. */
  ghost predicate LargePrimeBelow(n: int) {
    exists q :: 46340 * 46340 <= q < n && Prime(q)
  }

  lemma {:induction false} LargePrimeNext(n: int)
    ensures LargePrimeBelow(n + 1) <==> LargePrimeBelow(n) || (n >= 46340 * 46340 && Prime(n))
  {
  }

  /**
    `calculate_mth_prime_number`, which returns 1 when asked for a non-positive index. `largest` is the
    largest i*i computed on the way: with the result an int, it fits an int exactly if the result is
    below 46340*46340.
   */
  method CalculateMthPrimeNumber(m: int) returns (p: int, ghost largest: int)
    ensures m >= 1 ==> IsMthPrime(p, m)
    ensures m <= 0 ==> p == 1
    ensures p <= INT_MAX ==> (largest > INT_MAX <==> p >= 46340 * 46340)
  {
    ghost var bound: int := EnoughPrimes(if m >= 0 then m else 0);
    largest := 0;
    var i := 0;
    var num := 2;
    while i < m
      invariant num >= 2 && i == PrimesUpTo(num - 1)
      invariant m <= 0 ==> num == 2
      invariant m >= 1 ==> i <= m && (i == m ==> Prime(num - 1))
      invariant num - 1 <= INT_MAX ==> (largest > INT_MAX <==> LargePrimeBelow(num))
      decreases bound - num
    {
      if num > bound {
        PrimesUpToMonotone(bound, num - 1);
      }
      LargePrimeNext(num);
      var prime, square := IsPrime(num);
      largest := if square > largest then square else largest;
      if prime {
        i := i + 1;
      }
      num := num + 1;
    }
    LargePrimeNext(num - 1);
    return num - 1, largest;
  }

  /** The m-th prime is unique, strictly increasing in m, and every prime is one. */
  lemma {:induction false} MthPrimesAreThePrimes(p: int, m: nat, q: int, n: nat)
    requires IsMthPrime(p, m) && IsMthPrime(q, n)
    ensures m < n <==> p < q
    ensures m == n <==> p == q
    ensures m >= 1
  {
    PrimesUpToStrict(1, p);
    if p < q {
      PrimesUpToStrict(p, q);
    } else if q < p {
      PrimesUpToStrict(q, p);
    }
  }

  /** For every m >= 1 there is an m-th prime, and every prime is the m-th one for some m >= 1. */
  lemma {:induction false} MthPrimeIsOnto(m: nat, p: int) returns (q: int, n: nat)
    requires m >= 1 && Prime(p)
    ensures IsMthPrime(q, m)
    ensures n >= 1 && IsMthPrime(p, n)
  {
    n := PrimesUpTo(p);
    PrimesUpToStrict(1, p);
    var bound := EnoughPrimes(m);
    q := FirstWith(m, bound);
  }

  lemma {:induction false} FirstWith(m: nat, bound: int) returns (q: int)
    requires m >= 1 && PrimesUpTo(bound) >= m
    ensures IsMthPrime(q, m)
    decreases bound
  {
    if PrimesUpTo(bound - 1) >= m {
      q := FirstWith(m, bound - 1);
    } else {
      q := bound;
    }
  }
}
