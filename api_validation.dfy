/** The back-end's two input checks for multinomial requests
    (Simulador/main.py:162-169, 199-214): `validar_entrada`, with its 1%
    tolerance on the probability sum, and the stricter guards at the top of
    `funcion_densidad_multinomial`. Floats are modelled as exact reals. */
module ApiValidation {
  import opened Wrappers
  import opened Combinatorics

  /** Python's `sum` over floats, accumulated from the left. */
  function SumReal(s: seq<real>): real
  {
    if s == [] then 0.0 else SumReal(s[..|s| - 1]) + s[|s| - 1]
  }

  predicate AllPositive(ps: seq<real>)
  {
    forall i :: 0 <= i < |ps| ==> ps[i] > 0.0
  }

  /** The messages `validar_entrada` can return. */
  datatype ValidationError =
    | SumOutOfRange(suma: real)      // "Las probabilidades deben sumar 1.0 (suma actual: ...)"
    | NonPositiveProbability         // "Todas las probabilidades deben ser mayores que 0"
    | FrequencySumMismatch(n: int)   // "Las frecuencias deseadas deben sumar {n}"
    | NegativeFrequency              // "Las frecuencias no pueden ser negativas"

  /** `validar_entrada(probabilidades, frecuencias_deseadas, n_experimentos)`:
      the frequency checks run only when both optional arguments are given. */
  function ValidarEntrada(ps: seq<real>, frecuencias: Option<seq<int>>, n: Option<int>): (r: Option<ValidationError>)
    ensures !(0.99 <= SumReal(ps) <= 1.01) ==> r == Some(SumOutOfRange(SumReal(ps)))
    ensures 0.99 <= SumReal(ps) <= 1.01 && !AllPositive(ps) ==> r == Some(NonPositiveProbability)
    ensures (0.99 <= SumReal(ps) <= 1.01 && AllPositive(ps) && frecuencias.Some? && n.Some?
             && Sum(frecuencias.value) != n.value) ==> r == Some(FrequencySumMismatch(n.value))
    ensures (0.99 <= SumReal(ps) <= 1.01 && AllPositive(ps) && frecuencias.Some? && n.Some?
             && Sum(frecuencias.value) == n.value && !NonNegative(frecuencias.value)) ==> r == Some(NegativeFrequency)
    ensures r.Some? && r.value.FrequencySumMismatch? ==>
              frecuencias.Some? && n.Some? && Sum(frecuencias.value) != n.value && r.value.n == n.value
    ensures r.Some? && r.value.NegativeFrequency? ==>
              frecuencias.Some? && n.Some? && Sum(frecuencias.value) == n.value && !NonNegative(frecuencias.value)
    ensures r == None <==>
              && 0.99 <= SumReal(ps) <= 1.01
              && AllPositive(ps)
              && (frecuencias.Some? && n.Some? ==> Sum(frecuencias.value) == n.value && NonNegative(frecuencias.value))
  {
    var suma := SumReal(ps);
    if !(0.99 <= suma <= 1.01) then Some(SumOutOfRange(suma))
    else if exists i :: 0 <= i < |ps| && ps[i] <= 0.0 then Some(NonPositiveProbability)
    else if frecuencias.Some? && n.Some? then
      if Sum(frecuencias.value) != n.value then Some(FrequencySumMismatch(n.value))
      else if exists i :: 0 <= i < |frecuencias.value| && frecuencias.value[i] < 0 then Some(NegativeFrequency)
      else None
    else None
  }

  /** The `ValueError`s `funcion_densidad_multinomial` raises before computing. */
  datatype DensityError =
    | FrequenciesNotN       // "La suma de frecuencias ... no coincide con n=..."
    | ProbabilitiesNotOne   // "Las probabilidades deben sumar 1"
    | ProbabilityNotPositive

  function Abs(a: real): real
  {
    if a < 0.0 then -a else a
  }

  /** `math.isclose(a, 1.0, rel_tol=1e-9)` with its default absolute tolerance 0. */
  predicate IsCloseToOne(a: real)
  {
    Abs(a - 1.0) <= 0.000000001 * (if Abs(a) > 1.0 then Abs(a) else 1.0)
  }

  /** The guards of `funcion_densidad_multinomial`, in order. */
  function DensityGuard(n: int, frecuencias: seq<int>, ps: seq<real>): (r: Option<DensityError>)
    ensures Sum(frecuencias) != n ==> r == Some(FrequenciesNotN)
    ensures r == None <==> Sum(frecuencias) == n && IsCloseToOne(SumReal(ps)) && AllPositive(ps)
  {
    if Sum(frecuencias) != n then Some(FrequenciesNotN)
    else if !IsCloseToOne(SumReal(ps)) then Some(ProbabilitiesNotOne)
    else if exists i :: 0 <= i < |ps| && ps[i] <= 0.0 then Some(ProbabilityNotPositive)
    else None
  }

  /** A sum within relative 1e-9 of 1 lies within 1% of 1. */
  lemma CloseToOneIsInRange(a: real)
    requires IsCloseToOne(a)
    ensures 0.99 <= a <= 1.01
  {
  }

  /** On non-negative frequencies the density's guards accept only inputs
      that `validar_entrada` accepts. */
  lemma DensityGuardIsStricter(n: int, frecuencias: seq<int>, ps: seq<real>)
    requires NonNegative(frecuencias)
    ensures DensityGuard(n, frecuencias, ps) == None ==> ValidarEntrada(ps, Some(frecuencias), Some(n)) == None
  {
    if DensityGuard(n, frecuencias, ps) == None {
      CloseToOneIsInRange(SumReal(ps));
    }
  }

  /** The converse fails: probabilities summing to 0.995 pass validation and
      are then refused by the density. */
  lemma ToleranceGap()
    ensures ValidarEntrada([0.5, 0.495], Some([1, 1]), Some(2)) == None
    ensures DensityGuard(2, [1, 1], [0.5, 0.495]) == Some(ProbabilitiesNotOne)
  {
    assert [0.5, 0.495][..1] == [0.5] && [0.5][..0] == [];
    assert SumReal([0.5, 0.495]) == 0.995;
    assert [1, 1][..1] == [1] && [1][..0] == [];
    assert Sum([1, 1]) == 2;
  }
}
