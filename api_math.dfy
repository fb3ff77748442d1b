/** The back-end's exact counting helpers `factorial` and
    `coeficiente_multinomial` (Simulador/main.py:143-159). Python integers are
    unbounded, as Dafny's are; the final true division yields a float, modelled
    here as the exact real quotient. */
module ApiMath {
  import opened Combinatorics

  /** `factorial(n)`: 1 for every n <= 1 (negative n included), otherwise the
      product 2 * 3 * ... * n accumulated in a loop. */
  method Factorial(n: int) returns (r: nat)
    ensures n <= 1 ==> r == 1
    ensures r == Fact(n)
  {
    if n <= 1 {
      return 1;
    }
    r := 1;
    var i := 2;
    while i <= n
      invariant 2 <= i <= n + 1
      invariant r == Fact(i - 1)
    {
      r := i * r;
      i := i + 1;
    }
  }

  /** `coeficiente_multinomial(n, frecuencias)`: n! divided by the product of
      the frequencies' factorials. When the frequencies are a composition of n
      the quotient is exact: the number of ways to assign n labelled trials to
      groups of those sizes. */
  method CoeficienteMultinomial(n: int, frecuencias: seq<int>) returns (r: real)
    ensures r == Fact(n) as real / ProdFact(frecuencias) as real
    ensures NonNegative(frecuencias) && Sum(frecuencias) == n ==> r == MultinomialCount(frecuencias) as real
  {
    var numerador := Factorial(n);
    var denominador: nat := 1;
    var i := 0;
    while i < |frecuencias|
      invariant 0 <= i <= |frecuencias|
      invariant denominador == ProdFact(frecuencias[..i])
    {
      var f := Factorial(frecuencias[i]);
      assert frecuencias[..i + 1][..i] == frecuencias[..i];
      denominador := denominador * f;
      i := i + 1;
    }
    assert frecuencias[..i] == frecuencias;
    r := numerador as real / denominador as real;
    if NonNegative(frecuencias) && Sum(frecuencias) == n {
      MultinomialFactorization(frecuencias);
      ExactDivision(numerador, MultinomialCount(frecuencias), denominador);
    }
  }

  /** With two groups the multinomial coefficient is the binomial one, in
      either order of the groups. */
  lemma TwoGroupsAreBinomial(n: int, k: int)
    requires 0 <= k <= n
    ensures MultinomialCount([k, n - k]) == Choose(n, k)
    ensures MultinomialCount([n - k, k]) == Choose(n, k)
  {
    OneGroup(k);
    OneGroup(n - k);
    assert [k, n - k][..1] == [k] && Sum([k, n - k]) == n;
    assert [n - k, k][..1] == [n - k] && Sum([n - k, k]) == n;
    ChooseSymmetric(n, k);
  }

  lemma OneGroup(k: int)
    requires k >= 0
    ensures MultinomialCount([k]) == 1 && Sum([k]) == k
  {
    assert [k][..0] == [];
    assert Sum([k]) == Sum([]) + k;
    assert Choose(k, k) == 1;
    assert MultinomialCount([k]) == MultinomialCount([]) * Choose(k, k);
  }
}
