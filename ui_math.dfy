/** The front-end's integer helpers `factorial` and `combinations`
    (Simulador/static/js/simulador.js). */
module UiMath {
  import opened Wrappers
  import opened JsNumbers
  import opened Combinatorics

  /** `factorial(n)`: NaN for negative n, 1 for 0 and 1, else 2 * ... * n
      multiplied up in a loop. */
  method Factorial(n: int) returns (r: JsNum)
    ensures n < 0 <==> r == NaN
    ensures n >= 0 ==> r == Num(Fact(n) as real)
  {
    if n < 0 {
      return NaN;
    }
    if n == 0 || n == 1 {
      return Num(1.0);
    }
    var result := 1;
    var i := 2;
    while i <= n
      invariant 2 <= i <= n + 1
      invariant result == Fact(i - 1)
    {
      result := i * result;
      i := i + 1;
    }
    r := Num(result as real);
  }

  /** `combinations(n, k)`. `None` stands for the n > 170 branch, which
      approximates through logarithms and is not modelled. */
  function Combinations(n: int, k: int): (r: Option<real>)
    ensures (k < 0 || k > n) ==> r == Some(0.0)
    ensures 0 <= k <= n <= 170 ==> r == Some(Choose(n, k) as real)
    ensures 0 <= k <= n && n > 170 ==> r == None
  {
    if k < 0 || k > n then Some(0.0)
    else if n > 170 then None
    else
      QuotientIsChoose(n, k);
      Some(Fact(n) as real / (Fact(k) * Fact(n - k)) as real)
  }

  /** The factorial quotient n! / (k! (n - k)!) is Pascal's coefficient. */
  lemma QuotientIsChoose(n: int, k: int)
    requires 0 <= k <= n
    ensures Fact(k) * Fact(n - k) >= 1
    ensures Fact(n) as real / (Fact(k) * Fact(n - k)) as real == Choose(n, k) as real
  {
    FactSplit(n, k);
    QuotientOfProduct(Fact(n), Choose(n, k), Fact(k), Fact(n - k));
  }

  /** Dividing x = c * a * b by a * b, with a, b >= 1, gives back c. */
  lemma QuotientOfProduct(x: int, c: int, a: int, b: int)
    requires a >= 1 && b >= 1 && x == c * a * b
    ensures a * b >= 1
    ensures x as real / (a * b) as real == c as real
  {
    assert a * b >= 1 * b;
    assert x == c * (a * b);
    ExactDivision(x, c, a * b);
  }

  /** `combinations(n, k) == combinations(n, n - k)`. */
  lemma CombinationsSymmetric(n: int, k: int)
    ensures Combinations(n, k) == Combinations(n, n - k)
  {
    if 0 <= k <= n {
      ChooseSymmetric(n, k);
    }
  }
}
