/** The back-end's parameter checks at the top of the continuous and binomial
    endpoints (Simulador/main.py:91-92, 390-391, 431-432, 1002-1009). The
    exponential, normal and binomial endpoints refuse with HTTP 400; the
    bivariate one answers 200 with an `error` field. */
module ApiGuards {
  import opened Wrappers

  datatype Refusal = Status400(detail: string) | ErrorField(message: string)

  const RateDetail := "La tasa debe ser mayor que 0."
  const SigmaDetail := "La desviación estándar debe ser mayor que 0."
  const TooLargeDetail := "La combinación de ensayos y simulaciones es demasiado grande."
  const SigmasMessage := "Las desviaciones estándar deben ser mayores que 0"
  const RhoMessage := "El coeficiente de correlación debe estar entre -1 y 1"
  const ExperimentsMessage := "El número de experimentos debe ser mayor que 0"

  /** `/exponencial`: the rate must be positive. */
  function ExponencialGuard(tasa: real): (r: Option<Refusal>)
    ensures r.None? <==> tasa > 0.0
    ensures r.Some? ==> r.value == Status400(RateDetail)
  {
    if tasa <= 0.0 then Some(Status400(RateDetail)) else None
  }

  /** `/normal`: the standard deviation must be positive. */
  function NormalGuard(sigma: real): (r: Option<Refusal>)
    ensures r.None? <==> sigma > 0.0
    ensures r.Some? ==> r.value == Status400(SigmaDetail)
  {
    if sigma <= 0.0 then Some(Status400(SigmaDetail)) else None
  }

  /** `/binomial`: refuse only when both the trials per experiment exceed
      10000 and the experiments exceed 1000; either limit alone is allowed. */
  function BinomialGuard(numPruebas: int, numExperimentos: int): (r: Option<Refusal>)
    ensures r.None? <==> numPruebas <= 10000 || numExperimentos <= 1000
    ensures r.Some? ==> r.value == Status400(TooLargeDetail)
  {
    if numPruebas > 10000 && numExperimentos > 1000 then Some(Status400(TooLargeDetail)) else None
  }

  /** `/normal_bivariada`: both sigmas, then rho in [-1, 1], then a positive
      experiment count, each answered with its own `error` message. */
  function BivariadaGuard(sigmaX: real, sigmaY: real, rho: real, numExperimentos: int): (r: Option<Refusal>)
    ensures sigmaX <= 0.0 || sigmaY <= 0.0 ==> r == Some(ErrorField(SigmasMessage))
    ensures sigmaX > 0.0 && sigmaY > 0.0 && !(-1.0 <= rho <= 1.0) ==> r == Some(ErrorField(RhoMessage))
    ensures sigmaX > 0.0 && sigmaY > 0.0 && -1.0 <= rho <= 1.0 && numExperimentos <= 0 ==>
              r == Some(ErrorField(ExperimentsMessage))
    ensures r == Some(ErrorField(ExperimentsMessage)) ==> numExperimentos <= 0
    ensures r.None? <==> sigmaX > 0.0 && sigmaY > 0.0 && -1.0 <= rho <= 1.0 && numExperimentos > 0
  {
    if sigmaX <= 0.0 || sigmaY <= 0.0 then Some(ErrorField(SigmasMessage))
    else if !(-1.0 <= rho <= 1.0) then Some(ErrorField(RhoMessage))
    else if numExperimentos <= 0 then Some(ErrorField(ExperimentsMessage))
    else None
  }
}
