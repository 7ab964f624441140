/** Trial division by 2, 3 and the candidates next to multiples of six, and the
    list of primes it is used for. */
module Primos {
  ghost predicate IsPrime(n: int) {
    n >= 2 && forall d :: 2 <= d < n ==> n % d != 0
  }

  // ---- Divisors ----

  ghost predicate Divides(d: int, n: int)
    requires d != 0
  {
    exists q :: n == d * q
  }

  lemma DividesMod(d: int, n: int)
    requires d > 0
    ensures Divides(d, n) <==> n % d == 0
  {
    if n % d == 0 {
      assert n == d * (n / d);
    } else if Divides(d, n) {
      var q :| n == d * q;
      MultipleMod(d, q);
    }
  }

  lemma MultipleMod(d: int, q: int)
    requires d > 0
    ensures d * q % d == 0
  {
    var a := d * q / d;
    assert d * q % d == d * (q - a);
    BelowOne(d, q - a);
  }

  lemma BelowOne(d: int, k: int)
    ensures d > 0 && k >= 1 ==> d * k >= d
    ensures d > 0 && k <= -1 ==> d * k <= -d
  {
  }

  // A number without a divisor e has no divisor that e divides.
  lemma NoMultipleDivides(n: int, e: int, d: int)
    requires e > 0 && d > 0 && d % e == 0 && n % e != 0
    ensures n % d != 0
  {
    if n % d == 0 {
      DividesMod(e, d);
      DividesMod(d, n);
      var a :| d == e * a;
      var b :| n == d * b;
      assert n == e * (a * b);
      DividesMod(e, n);
    }
  }

  ghost predicate NoDivisorBelow(n: int, i: int) {
    forall d :: 2 <= d < i ==> n % d != 0
  }

  // The numbers between two candidates are multiples of 2 or of 3.
  lemma BetweenCandidates(i: int)
    requires i % 6 == 5
    ensures (i + 1) % 2 == 0 && (i + 3) % 2 == 0 && (i + 4) % 3 == 0 && (i + 5) % 2 == 0
  {
  }

  // Testing i and i + 2 is enough to get from i to i + 6.
  lemma NextCandidates(n: int, i: int)
    requires i >= 5 && i % 6 == 5 && n % 2 != 0 && n % 3 != 0
    requires NoDivisorBelow(n, i) && n % i != 0 && n % (i + 2) != 0
    ensures NoDivisorBelow(n, i + 6)
  {
    BetweenCandidates(i);
    forall d | 2 <= d < i + 6 ensures n % d != 0 {
      if d == i + 4 {
        NoMultipleDivides(n, 3, d);
      } else if d == i + 1 || d == i + 3 || d == i + 5 {
        NoMultipleDivides(n, 2, d);
      }
    }
  }

  // Testing up to the square root is enough.
  lemma NoDivisorUpToRoot(n: int, i: int)
    requires n >= 2 && i >= 2 && i * i > n && NoDivisorBelow(n, i)
    ensures NoDivisorBelow(n, n)
  {
    forall d | 2 <= d < n ensures n % d != 0 {
      if d >= i && n % d == 0 {
        SmallCofactor(d, n / d, i);
        assert n == (n / d) * d;
        DividesMod(n / d, n);
      }
    }
  }

  lemma SmallCofactor(d: int, q: int, i: int)
    requires i >= 2 && d >= i && d < d * q < i * i
    ensures 2 <= q < i
  {
    if q >= i {
      Product(d, q, i);
    }
  }

  lemma Product(a: int, b: int, c: int)
    ensures a >= c >= 0 && b >= c ==> a * b >= c * c
  {
  }

  // A candidate in the loop, and its companion, are below the number itself.
  lemma CandidatesBelow(n: int, i: int)
    requires i >= 5 && i * i <= n
    ensures i + 2 < n
  {
    assert i * i >= 5 * i;
  }

  lemma SmallNumbers(n: int)
    ensures n <= 1 ==> !IsPrime(n)
    ensures 2 <= n <= 3 ==> IsPrime(n)
  {
  }

  lemma HasDivisor(n: int, d: int)
    requires 2 <= d < n && n % d == 0
    ensures !IsPrime(n)
  {
  }

  lemma NoSmallDivisor(n: int)
    requires n % 2 != 0 && n % 3 != 0
    ensures NoDivisorBelow(n, 5)
  {
    NoMultipleDivides(n, 2, 4);
  }

  lemma PrimeByRoot(n: int, i: int)
    requires n >= 2 && i >= 2 && i * i > n && NoDivisorBelow(n, i)
    ensures IsPrime(n)
  {
    NoDivisorUpToRoot(n, i);
  }

  // ---- The program ----

  // The candidate of the loop's k-th turn, 6k - 1, is not beyond the square root.
  predicate Below(k: nat, n: int) {
    k >= 1 ==> (6 * k - 1) * (6 * k - 1) <= n
  }

  lemma TurnBelow(k: nat, i: int, n: int)
    requires k >= 1 && i == 6 * k - 1
    ensures Below(k, n) <==> i * i <= n
  {
  }

  // True exactly for the primes.  `steps` counts the turns of the loop: each one
  // takes place below the square root, and a prime gets them all.
  method EsPrimo(num: int) returns (r: bool, ghost steps: nat)
    ensures r <==> IsPrime(num)
    ensures Below(steps, num)
    ensures r ==> !Below(steps + 1, num)
  {
    hide IsPrime, NoDivisorBelow, Below;
    SmallNumbers(num);
    steps := 0;
    NoTurns(num);
    if num <= 1 {
      return false, 0;
    }
    if num <= 3 {
      return true, 0;
    }
    if num % 2 == 0 || num % 3 == 0 {
      HasDivisor(num, if num % 2 == 0 then 2 else 3);
      return false, 0;
    }
    var i := 5;
    NoSmallDivisor(num);
    while i * i <= num
      invariant i == 6 * steps + 5
      invariant NoDivisorBelow(num, i) && Below(steps, num)
      decreases num - i
    {
      CandidatesBelow(num, i);
      steps := steps + 1;
      TurnBelow(steps, i, num);
      if num % i == 0 || num % (i + 2) == 0 {
        HasDivisor(num, if num % i == 0 then i else i + 2);
        return false, steps;
      }
      NextCandidates(num, i);
      i := i + 6;
    }
    PrimeByRoot(num, i);
    TurnBelow(steps + 1, i, num);
    return true, steps;
  }

  lemma NoTurns(n: int)
    ensures Below(0, n)
    ensures n <= 3 ==> !Below(1, n)
  {
  }

  ghost predicate Increasing(s: seq<int>) {
    forall i, j :: 0 <= i < j < |s| ==> s[i] < s[j]
  }

  ghost predicate PrimesUpTo(s: seq<int>, n: int) {
    Increasing(s) && forall p :: p in s <==> IsPrime(p) && p <= n
  }

  method ObtenerPrimos(n: int) returns (primos: seq<int>)
    ensures PrimesUpTo(primos, n)
  {
    primos := [];
    var i := 2;
    while i <= n
      invariant i >= 2 && i <= (if n < 2 then 2 else n + 1)
      invariant PrimesUpTo(primos, i - 1)
    {
      var prime, _ := EsPrimo(i);
      if prime {
        AppendPrime(primos, i);
        primos := primos + [i];
      }
      i := i + 1;
    }
  }

  lemma AppendPrime(s: seq<int>, p: int)
    requires PrimesUpTo(s, p - 1) && IsPrime(p)
    ensures PrimesUpTo(s + [p], p)
  {
    forall i | 0 <= i < |s| ensures s[i] < p {
      assert s[i] in s;
    }
  }

  // There is only one such list.
  lemma {:induction false} PrimesUpToUnique(s: seq<int>, t: seq<int>, n: int)
    requires PrimesUpTo(s, n) && PrimesUpTo(t, n)
    ensures s == t
  {
    SameMembersSameList(s, t);
  }

  lemma LastIsMember(s: seq<int>)
    ensures s != [] ==> s[|s| - 1] in s
  {
  }

  lemma {:induction false} SameMembersSameList(s: seq<int>, t: seq<int>)
    requires Increasing(s) && Increasing(t) && forall p :: p in s <==> p in t
    ensures s == t
    decreases |s|
  {
    LastIsMember(s);
    LastIsMember(t);
    if s != [] {
      var a, b := s[|s| - 1], t[|t| - 1];
      assert a == b;
      var s', t' := s[..|s| - 1], t[..|t| - 1];
      forall p ensures p in s' <==> p in t' {
        assert p in s' <==> p in s && p != a;
        assert p in t' <==> p in t && p != b;
      }
      SameMembersSameList(s', t');
    }
  }
}
