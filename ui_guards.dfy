/** The validation prefixes of the front-end's submit handlers
    (Simulador/static/js/simulador.js): each runs on the parsed form values
    before any request is sent, and the first failing check decides the
    message shown. */
module UiGuards {
  import opened Wrappers
  import opened JsNumbers

  /** The inline messages (and, for the multinomial forms, alerts) a guard can show. */
  datatype FormError =
    | ProbabilityOutOfRange          // p must lie in [0, 1]
    | ExperimentsNotPositive         // Bernoulli: experiments must be positive
    | TrialsNotPositiveInteger       // binomial n
    | ExperimentsNotPositiveInteger  // simulation / sample counts
    | RateNotPositive                // exponential rate
    | SigmaNotPositive               // normal sigma
    | SigmasNotPositive              // bivariate sigma_x, sigma_y
    | CorrelationOutOfRange          // bivariate rho
    | ProbabilitySumOff              // multinomial: |sum p - 1| > 0.01
    | FrequencySumMismatch           // multinomial: sum k != n

  /** `a <= 0 || !Number.isInteger(a)` fails: a is a whole number above 0. */
  predicate PositiveInteger(a: JsNum)
  {
    IsInteger(a) && a.v > 0.0
  }

  /** `p < 0 || p > 1`. */
  predicate OutsideUnit(p: JsNum)
  {
    Less(p, 0.0) || Greater(p, 1.0)
  }

  /** setupBernoulli's checks: p, then the experiment count. */
  function BernoulliGuard(numExp: JsNum, p: JsNum): (r: Option<FormError>)
    ensures OutsideUnit(p) ==> r == Some(ProbabilityOutOfRange)
    ensures !OutsideUnit(p) && AtMost(numExp, 0.0) ==> r == Some(ExperimentsNotPositive)
    ensures r == None <==> !OutsideUnit(p) && !AtMost(numExp, 0.0)
  {
    if OutsideUnit(p) then Some(ProbabilityOutOfRange)
    else if AtMost(numExp, 0.0) then Some(ExperimentsNotPositive)
    else None
  }

  /** The Bernoulli guard is exactly the domain check on parsed numbers:
      p in [0, 1] and a positive experiment count. */
  lemma BernoulliGuardOnNumbers(n: real, p: real)
    ensures BernoulliGuard(Num(n), Num(p)) == None <==> 0.0 <= p <= 1.0 && n > 0.0
  {
  }

  /** As written, the Bernoulli guard does not reject unparsable fields:
      NaN compares false, so blank inputs pass and reach the request. The
      count is read with `parseInt`, so a count typed as "1.5" arrives as 1
      and passes beside a blank probability. */
  lemma BernoulliGuardPassesNaN()
    ensures BernoulliGuard(NaN, NaN) == None
    ensures BernoulliGuard(Num(1.0), NaN) == None
  {
  }

  /** setupBinomial's checks: p, then the trial count n, then the number of
      simulations, each a positive integer. */
  function BinomialGuard(numExp: JsNum, p: JsNum, n: JsNum): (r: Option<FormError>)
    ensures r == None <==> !OutsideUnit(p) && PositiveInteger(n) && PositiveInteger(numExp)
    ensures OutsideUnit(p) ==> r == Some(ProbabilityOutOfRange)
    ensures !OutsideUnit(p) && !PositiveInteger(n) ==> r == Some(TrialsNotPositiveInteger)
    ensures !OutsideUnit(p) && PositiveInteger(n) && !PositiveInteger(numExp) ==> r == Some(ExperimentsNotPositiveInteger)
  {
    if OutsideUnit(p) then Some(ProbabilityOutOfRange)
    else if AtMost(n, 0.0) || !IsInteger(n) then Some(TrialsNotPositiveInteger)
    else if AtMost(numExp, 0.0) || !IsInteger(numExp) then Some(ExperimentsNotPositiveInteger)
    else None
  }

  /** Every well-formed binomial form passes. */
  lemma BinomialGuardAccepts(numExp: int, p: real, n: int)
    requires numExp > 0 && n > 0 && 0.0 <= p <= 1.0
    ensures BinomialGuard(Num(numExp as real), Num(p), Num(n as real)) == None
  {
    assert (numExp as real).Floor == numExp;
    assert (n as real).Floor == n;
  }

  /** setupExponencial's checks: the rate, then the experiment count. */
  function ExponencialGuard(numExp: JsNum, rate: JsNum): (r: Option<FormError>)
    ensures AtMost(rate, 0.0) ==> r == Some(RateNotPositive)
    ensures !AtMost(rate, 0.0) && !PositiveInteger(numExp) ==> r == Some(ExperimentsNotPositiveInteger)
    ensures r == None <==> !AtMost(rate, 0.0) && PositiveInteger(numExp)
  {
    if AtMost(rate, 0.0) then Some(RateNotPositive)
    else if AtMost(numExp, 0.0) || !IsInteger(numExp) then Some(ExperimentsNotPositiveInteger)
    else None
  }

  /** setupNormal's checks: sigma, then the experiment count. */
  function NormalGuard(numExp: JsNum, sigma: JsNum): (r: Option<FormError>)
    ensures AtMost(sigma, 0.0) ==> r == Some(SigmaNotPositive)
    ensures !AtMost(sigma, 0.0) && !PositiveInteger(numExp) ==> r == Some(ExperimentsNotPositiveInteger)
    ensures r == None <==> !AtMost(sigma, 0.0) && PositiveInteger(numExp)
  {
    if AtMost(sigma, 0.0) then Some(SigmaNotPositive)
    else if AtMost(numExp, 0.0) || !IsInteger(numExp) then Some(ExperimentsNotPositiveInteger)
    else None
  }

  /** setupNormalBivariada's checks, in order: both sigmas, rho in [-1, 1],
      then the experiment count. */
  function BivariadaGuard(numExp: JsNum, sigmaX: JsNum, sigmaY: JsNum, rho: JsNum): (r: Option<FormError>)
    ensures AtMost(sigmaX, 0.0) || AtMost(sigmaY, 0.0) ==> r == Some(SigmasNotPositive)
    ensures (!AtMost(sigmaX, 0.0) && !AtMost(sigmaY, 0.0) && (Less(rho, -1.0) || Greater(rho, 1.0)))
            ==> r == Some(CorrelationOutOfRange)
    ensures (!AtMost(sigmaX, 0.0) && !AtMost(sigmaY, 0.0) && !Less(rho, -1.0) && !Greater(rho, 1.0)
             && !PositiveInteger(numExp)) ==> r == Some(ExperimentsNotPositiveInteger)
    ensures r == None <==> && !AtMost(sigmaX, 0.0) && !AtMost(sigmaY, 0.0)
                           && !Less(rho, -1.0) && !Greater(rho, 1.0) && PositiveInteger(numExp)
  {
    if AtMost(sigmaX, 0.0) || AtMost(sigmaY, 0.0) then Some(SigmasNotPositive)
    else if Less(rho, -1.0) || Greater(rho, 1.0) then Some(CorrelationOutOfRange)
    else if AtMost(numExp, 0.0) || !IsInteger(numExp) then Some(ExperimentsNotPositiveInteger)
    else None
  }

  /** Sum of the probability fields with unparsable entries read as 0
      (`parseFloat(v) || 0`), as checkProbSum computes it. */
  function SumOrZero(ps: seq<JsNum>): real
  {
    if ps == [] then 0.0 else SumOrZero(ps[..|ps| - 1]) + OrZero(ps[|ps| - 1])
  }

  /** checkProbSum: the warning is shown exactly when |sum - 1| > 0.01. */
  function SumWarningVisible(ps: seq<JsNum>): (r: bool)
    ensures r <==> SumOrZero(ps) > 1.01 || SumOrZero(ps) < 0.99
  {
    OffByMoreThanTolerance(Num(SumOrZero(ps)))
  }

  /** The tolerance test of simularMultinomial and calcularProbabilidad as
      written: `Math.abs(suma - 1) > 0.01` on a plain sum, which is false when
      the sum is NaN. */
  predicate ProbSumRejectsAsWritten(ps: seq<JsNum>)
  {
    OffByMoreThanTolerance(SumAll(ps))
  }

  /** The test as evidently intended: reject unless the sum is a number
      within 0.01 of 1. */
  predicate ProbSumRejects(ps: seq<JsNum>)
  {
    SumAll(ps).NaN? || OffByMoreThanTolerance(SumAll(ps))
  }

  /** As written, a blank probability field is sent to the server: the
      warning is on, yet the submit test lets the list through. */
  lemma BlankProbabilityPassesAsWritten()
    ensures SumWarningVisible([Num(0.5), NaN])
    ensures !ProbSumRejectsAsWritten([Num(0.5), NaN])
  {
    assert [Num(0.5), NaN][..1] == [Num(0.5)];
    assert [Num(0.5)][..0] == [];
  }

  /** When every field parses, the two sums agree. */
  lemma {:induction false} SumsAgree(ps: seq<JsNum>)
    requires forall i :: 0 <= i < |ps| ==> ps[i].Num?
    ensures SumAll(ps) == Num(SumOrZero(ps))
  {
    if ps != [] {
      SumsAgree(ps[..|ps| - 1]);
    }
  }

  /** The corrected submit test rejects every list with a blank entry and,
      when every entry parses, rejects exactly when checkProbSum shows its
      warning. */
  lemma ProbSumRejectsMatchesWarning(ps: seq<JsNum>)
    ensures (exists i :: 0 <= i < |ps| && ps[i].NaN?) ==> ProbSumRejects(ps)
    ensures (forall i :: 0 <= i < |ps| ==> ps[i].Num?) ==> (ProbSumRejects(ps) <==> SumWarningVisible(ps))
  {
    SumAllIsNumber(ps);
    if forall i :: 0 <= i < |ps| ==> ps[i].Num? {
      SumsAgree(ps);
    }
  }

  /** simularMultinomial's check, with the corrected tolerance test. */
  function SimularMultinomialGuard(ps: seq<JsNum>): (r: Option<FormError>)
    ensures r == None ==> SumAll(ps).Num? && 0.99 <= SumAll(ps).v <= 1.01
    ensures r == None <==> !ProbSumRejects(ps)
    ensures r.Some? ==> r == Some(ProbabilitySumOff)
  {
    if ProbSumRejects(ps) then Some(ProbabilitySumOff) else None
  }

  /** `a !== b` on numbers: NaN differs from everything. */
  predicate StrictlyDifferent(a: JsNum, b: JsNum)
  {
    a.NaN? || b.NaN? || a.v != b.v
  }

  /** calcularProbabilidad's checks: the probability sum (corrected tolerance
      test), then the desired frequencies must add up to the experiment count. */
  function CalcularProbabilidadGuard(ps: seq<JsNum>, ks: seq<JsNum>, n: JsNum): (r: Option<FormError>)
    ensures ProbSumRejects(ps) ==> r == Some(ProbabilitySumOff)
    ensures r == None ==> SumAll(ps).Num? && 0.99 <= SumAll(ps).v <= 1.01
    ensures r == None ==> n.Num? && SumAll(ks) == n
    ensures !ProbSumRejects(ps) && StrictlyDifferent(SumAll(ks), n) ==> r == Some(FrequencySumMismatch)
    ensures r == None <==> !ProbSumRejects(ps) && !StrictlyDifferent(SumAll(ks), n)
  {
    if ProbSumRejects(ps) then Some(ProbabilitySumOff)
    else if StrictlyDifferent(SumAll(ks), n) then Some(FrequencySumMismatch)
    else None
  }

  /** The cases the front-end is documented to reject: probabilities summing
      to 1.02, and desired frequencies that miss n. */
  lemma CalcularProbabilidadRejects()
    ensures CalcularProbabilidadGuard([Num(0.51), Num(0.51)], [Num(5.0), Num(5.0)], Num(10.0)) == Some(ProbabilitySumOff)
    ensures CalcularProbabilidadGuard([Num(0.5), Num(0.5)], [Num(5.0), Num(4.0)], Num(10.0)) == Some(FrequencySumMismatch)
    ensures CalcularProbabilidadGuard([Num(0.5), Num(0.5)], [Num(5.0), Num(5.0)], Num(10.0)) == None
  {
    assert [Num(0.51), Num(0.51)][..1] == [Num(0.51)];
    assert [Num(0.5), Num(0.5)][..1] == [Num(0.5)];
    assert [Num(5.0), Num(5.0)][..1] == [Num(5.0)];
    assert [Num(5.0), Num(4.0)][..1] == [Num(5.0)];
    assert [Num(0.51)][..0] == [] && [Num(0.5)][..0] == [] && [Num(5.0)][..0] == [];
  }
}
