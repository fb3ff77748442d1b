/** How the browser's checks (Simulador/static/js/simulador.js) relate to the
    server's (Simulador/main.py) for the same request: where the server's
    check is implied by the browser's, where they coincide, and the one limit
    only the server enforces. */
module GuardAgreement {
  import opened Wrappers
  import opened JsNumbers
  import UiGuards
  import ApiGuards
  import opened ApiValidation

  /** An exponential form that passes the browser's checks passes the
      server's; a rate the server refuses is refused by the browser with the
      same complaint. */
  lemma ExponencialGuardsAgree(numExp: int, rate: real)
    ensures UiGuards.ExponencialGuard(Num(numExp as real), Num(rate)) == None ==>
              ApiGuards.ExponencialGuard(rate) == None
    ensures ApiGuards.ExponencialGuard(rate).Some? ==>
              UiGuards.ExponencialGuard(Num(numExp as real), Num(rate)) == Some(UiGuards.RateNotPositive)
  {
  }

  /** The same for the normal form and its standard deviation. */
  lemma NormalGuardsAgree(numExp: int, sigma: real)
    ensures UiGuards.NormalGuard(Num(numExp as real), Num(sigma)) == None ==>
              ApiGuards.NormalGuard(sigma) == None
    ensures ApiGuards.NormalGuard(sigma).Some? ==>
              UiGuards.NormalGuard(Num(numExp as real), Num(sigma)) == Some(UiGuards.SigmaNotPositive)
  {
  }

  /** A bivariate-normal form that passes the browser's checks passes the
      server's. */
  lemma BivariadaGuardsAgree(numExp: int, sigmaX: real, sigmaY: real, rho: real)
    ensures UiGuards.BivariadaGuard(Num(numExp as real), Num(sigmaX), Num(sigmaY), Num(rho)) == None ==>
              ApiGuards.BivariadaGuard(sigmaX, sigmaY, rho, numExp) == None
  {
  }

  /** The browser does not know the server's size limit: 10001 trials in each
      of 1001 experiments pass its binomial checks and are refused upstream. */
  lemma BinomialLimitOnlyOnServer()
    ensures UiGuards.BinomialGuard(Num(1001.0), Num(0.5), Num(10001.0)) == None
    ensures ApiGuards.BinomialGuard(10001, 1001) == Some(ApiGuards.Status400(ApiGuards.TooLargeDetail))
  {
    UiGuards.BinomialGuardAccepts(1001, 0.5, 10001);
  }

  /** Probability fields that all parse, as the browser holds them. */
  function Nums(vs: seq<real>): (r: seq<JsNum>)
    ensures |r| == |vs| && forall i :: 0 <= i < |vs| ==> r[i] == Num(vs[i])
  {
    seq(|vs|, i requires 0 <= i < |vs| => Num(vs[i]))
  }

  lemma {:induction false} SumAllNums(vs: seq<real>)
    ensures SumAll(Nums(vs)) == Num(SumReal(vs))
  {
    if vs != [] {
      assert Nums(vs)[..|vs| - 1] == Nums(vs[..|vs| - 1]);
      SumAllNums(vs[..|vs| - 1]);
    }
  }

  /** On parsed probabilities, the browser's (corrected) multinomial check and
      the server's first validation rule accept exactly the same lists. */
  lemma ProbabilitySumChecksAgree(vs: seq<real>)
    ensures UiGuards.SimularMultinomialGuard(Nums(vs)) == None <==> 0.99 <= SumReal(vs) <= 1.01
    ensures UiGuards.SimularMultinomialGuard(Nums(vs)) == None <==>
              ValidarEntrada(vs, None, None) != Some(SumOutOfRange(SumReal(vs)))
  {
    SumAllNums(vs);
  }
}
