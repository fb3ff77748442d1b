/** Reference definitions for the counting functions both halves of the
    simulator compute: factorial, binomial coefficient (by Pascal's rule) and
    the multinomial coefficient (as a product of binomial coefficients), with
    the identities that connect them. */
module Combinatorics {
  /** `max(n, 0)`: the number of iterations `range(n)` runs. */
  function Max0(n: int): nat
  {
    if n > 0 then n else 0
  }


  /** Sum of a sequence of integers, accumulated from the left as the source's
      loops and `reduce` calls do. */
  function Sum(s: seq<int>): int
  {
    if s == [] then 0 else Sum(s[..|s| - 1]) + s[|s| - 1]
  }

  predicate NonNegative(s: seq<int>)
  {
    forall i :: 0 <= i < |s| ==> s[i] >= 0
  }

  lemma {:induction false} SumNonNegative(s: seq<int>)
    requires NonNegative(s)
    ensures Sum(s) >= 0
  {
    if s != [] {
      SumNonNegative(s[..|s| - 1]);
    }
  }

  /** n!, with every n <= 1 giving 1. */
  function Fact(n: int): (r: nat)
    ensures r >= 1
    decreases if n < 0 then 0 else n
  {
    if n <= 1 then 1 else n * Fact(n - 1)
  }

  /** The binomial coefficient by Pascal's rule: 0 outside 0 <= k <= n. */
  function Choose(n: int, k: int): nat
    decreases if n < 0 then 0 else n
  {
    if k < 0 || k > n then 0
    else if k == 0 || k == n then 1
    else Choose(n - 1, k - 1) + Choose(n - 1, k)
  }

  /** n! = C(n, k) * k! * (n - k)!: the factorial quotient of the front-end's
      `combinations` is exactly Pascal's coefficient. */
  lemma {:induction false} FactSplit(n: int, k: int)
    requires 0 <= k <= n
    ensures Fact(n) == Choose(n, k) * Fact(k) * Fact(n - k)
  {
    if k == 0 || k == n {
    } else {
      FactSplit(n - 1, k - 1);
      FactSplit(n - 1, k);
      PascalStep(Choose(n - 1, k - 1), Choose(n - 1, k), k, n - k,
                 Fact(k - 1), Fact(n - k - 1), Fact(n - 1));
    }
  }

  /** The arithmetic behind one step of FactSplit: with X = a*f*(m*g) = b*(k*f)*g,
      (a + b)*(k*f)*(m*g) = (k + m)*X. */
  lemma PascalStep(a: int, b: int, k: int, m: int, f: int, g: int, x: int)
    requires x == a * f * (m * g) && x == b * (k * f) * g
    ensures (a + b) * (k * f) * (m * g) == (k + m) * x
  {
    calc {
      (a + b) * (k * f) * (m * g);
      a * (k * f) * (m * g) + b * (k * f) * (m * g);
      { assert a * (k * f) * (m * g) == k * (a * f * (m * g));
        assert b * (k * f) * (m * g) == m * (b * (k * f) * g); }
      k * x + m * x;
    }
  }

  /** C(n, k) = C(n, n - k). */
  lemma {:induction false} ChooseSymmetric(n: int, k: int)
    requires 0 <= k <= n
    ensures Choose(n, k) == Choose(n, n - k)
  {
    if k != 0 && k != n {
      ChooseSymmetric(n - 1, k - 1);
      ChooseSymmetric(n - 1, k);
    }
  }

  /** Product of the factorials of the entries. */
  function ProdFact(fs: seq<int>): (r: nat)
    ensures r >= 1
  {
    if fs == [] then 1 else ProdFact(fs[..|fs| - 1]) * Fact(fs[|fs| - 1])
  }

  lemma Regroup(c: int, f: int, m: int, p: int)
    ensures c * f * (m * p) == (m * c) * (p * f)
  {
  }

  /** Number of ways to split Sum(fs) labelled trials into groups of sizes fs:
      a product of binomial coefficients, hence a natural number. */
  function MultinomialCount(fs: seq<int>): nat
  {
    if fs == [] then 1
    else MultinomialCount(fs[..|fs| - 1]) * Choose(Sum(fs), fs[|fs| - 1])
  }

  /** (f1 + ... + fk)! = MultinomialCount(fs) * f1! * ... * fk!, so the
      quotient n! / (f1! ... fk!) is a whole number when the fs sum to n. */
  lemma {:induction false} MultinomialFactorization(fs: seq<int>)
    requires NonNegative(fs)
    ensures Fact(Sum(fs)) == MultinomialCount(fs) * ProdFact(fs)
  {
    if fs != [] {
      var init, last := fs[..|fs| - 1], fs[|fs| - 1];
      assert NonNegative(init);
      SumNonNegative(init);
      MultinomialFactorization(init);
      FactSplit(Sum(fs), last);
      Regroup(Choose(Sum(fs), last), Fact(last), MultinomialCount(init), ProdFact(init));
    }
  }

  /** If x = c * p with p >= 1, dividing x by p in the reals gives back c. */
  lemma ExactDivision(x: int, c: int, p: int)
    requires p >= 1 && x == c * p
    ensures x as real / p as real == c as real
  {
    assert x as real == c as real * p as real;
  }
}
