/** The back-end's exact-probability endpoints `/calcular-probabilidad` and
    `/simular-verificacion` (Simulador/main.py:238-369): the multinomial
    density, its rarity interpretation, and the Monte Carlo check of it.
    The density is the exact real value n!/(k1!...km!) * p1^k1 * ... * pm^km;
    the source reaches it through `lgamma`, `log` and `exp` in floating point. */
module ApiProbability {
  import opened Wrappers
  import opened Combinatorics
  import opened ApiMath
  import opened ApiValidation
  import opened ApiMultinomial

  function Pow(p: real, e: nat): real
  {
    if e == 0 then 1.0 else p * Pow(p, e - 1)
  }

  function Min(a: int, b: int): int
  {
    if a < b then a else b
  }

  /** The product of `pow(prob, freq)` over the first i pairs of
      `zip(probabilidades, frecuencias)`. */
  function ProdPow(ps: seq<real>, fs: seq<int>, i: nat): real
    requires i <= |ps| && i <= |fs| && NonNegative(fs)
  {
    if i == 0 then 1.0 else ProdPow(ps, fs, i - 1) * Pow(ps[i - 1], fs[i - 1])
  }

  /** The multinomial probability of observing the counts fs. */
  function Density(ps: seq<real>, fs: seq<int>): real
    requires NonNegative(fs)
  {
    Coefficient(fs) * ProdPow(ps, fs, Min(|ps|, |fs|))
  }

  /** The multinomial coefficient as the real the endpoint reports. */
  function Coefficient(fs: seq<int>): real
  {
    MultinomialCount(fs) as real
  }

  lemma {:induction false} PowPositive(p: real, e: nat)
    requires p > 0.0
    ensures Pow(p, e) > 0.0
  {
    if e > 0 {
      PowPositive(p, e - 1);
    }
  }

  lemma {:induction false} ProdPowPositive(ps: seq<real>, fs: seq<int>, i: nat)
    requires i <= |ps| && i <= |fs| && NonNegative(fs) && AllPositive(ps)
    ensures ProdPow(ps, fs, i) > 0.0
  {
    if i > 0 {
      ProdPowPositive(ps, fs, i - 1);
      PowPositive(ps[i - 1], fs[i - 1]);
    }
  }

  /** Every configuration that passes the guards has a positive probability,
      so in exact arithmetic the "imposible" interpretation is never reached. */
  lemma DensityPositive(ps: seq<real>, fs: seq<int>)
    requires NonNegative(fs) && AllPositive(ps)
    ensures Density(ps, fs) > 0.0
  {
    MultinomialFactorization(fs);
    ProdPowPositive(ps, fs, Min(|ps|, |fs|));
  }

  /** The interpretation's rarity classes, from most to least likely. */
  datatype Rarity = MuyComun | Comun | PocoComun | Raro | MuyRaro | ExtremadamenteRaro | CasiImposible | Imposible

  function Rank(r: Rarity): nat
  {
    match r
    case MuyComun => 0
    case Comun => 1
    case PocoComun => 2
    case Raro => 3
    case MuyRaro => 4
    case ExtremadamenteRaro => 5
    case CasiImposible => 6
    case Imposible => 7
  }

  /** The `rareza` ladder of thresholds. */
  function RarityOf(d: real): Rarity
  {
    if d <= 0.0 then Imposible
    else if d >= 0.1 then MuyComun
    else if d >= 0.01 then Comun
    else if d >= 0.001 then PocoComun
    else if d >= 0.0001 then Raro
    else if d >= 0.00001 then MuyRaro
    else if d >= 0.000000001 then ExtremadamenteRaro
    else CasiImposible
  }

  /** Each rarity class is one interval of probabilities. */
  lemma RarityBands(d: real)
    ensures RarityOf(d) == MuyComun <==> d >= 0.1
    ensures RarityOf(d) == Comun <==> 0.01 <= d < 0.1
    ensures RarityOf(d) == PocoComun <==> 0.001 <= d < 0.01
    ensures RarityOf(d) == Raro <==> 0.0001 <= d < 0.001
    ensures RarityOf(d) == MuyRaro <==> 0.00001 <= d < 0.0001
    ensures RarityOf(d) == ExtremadamenteRaro <==> 0.000000001 <= d < 0.00001
    ensures RarityOf(d) == CasiImposible <==> 0.0 < d < 0.000000001
    ensures RarityOf(d) == Imposible <==> d <= 0.0
  {
  }

  /** A less likely configuration is never classed as more common. */
  lemma RarityMonotone(d1: real, d2: real)
    requires d1 <= d2
    ensures Rank(RarityOf(d2)) <= Rank(RarityOf(d1))
  {
  }

  /** `interpretacion`: `uno_en` is None for the infinite "one in" of a zero
      density. */
  datatype Interpretation = Interpretation(porcentaje: real, unoEn: Option<int>, rareza: Rarity, anosSiDiario: int)

  /** If q is the whole part of 1/d, then q * d <= 1 < (q + 1) * d. */
  lemma WholePartOfInverse(d: real, q: int)
    requires d > 0.0 && q == (1.0 / d).Floor
    ensures q as real * d <= 1.0 < (q as real + 1.0) * d
  {
    var inv := 1.0 / d;
    assert inv * d == 1.0;
    assert q as real <= inv < q as real + 1.0;
    MultiplyMonotone(q as real, inv, d);
    MultiplyMonotone(inv, q as real + 1.0, d);
    assert inv * d < (q as real + 1.0) * d;
  }

  lemma MultiplyMonotone(a: real, b: real, d: real)
    requires d > 0.0 && a <= b
    ensures a * d <= b * d && (a < b ==> a * d < b * d)
  {
  }

  /** `interpretacion` for a density d. */
  function Interpretar(d: real): (r: Interpretation)
    ensures r.rareza == RarityOf(d)
    ensures d <= 0.0 ==> r == Interpretation(0.0, None, Imposible, 0)
  {
    if d > 0.0 then
      var unoEn := (1.0 / d).Floor;
      Interpretation(d * 100.0, Some(unoEn), RarityOf(d), if unoEn >= 365 then unoEn / 365 else 0)
    else
      Interpretation(0.0, None, Imposible, 0)
  }

  /** For a positive density: the percentage is 100 d; "one in" q is the
      whole part of 1/d, so q d <= 1 < (q + 1) d; and the years at one try a
      day are the whole part of q / 365, or 0 below a year. */
  lemma InterpretationFigures(d: real)
    ensures var r := Interpretar(d);
      && (d > 0.0 ==> r.porcentaje == d * 100.0 && r.unoEn.Some?)
      && (d > 0.0 ==> r.unoEn.value as real * d <= 1.0 < (r.unoEn.value as real + 1.0) * d)
      && r.anosSiDiario >= 0
      && (r.unoEn.Some? && r.unoEn.value >= 365 ==>
            r.anosSiDiario * 365 <= r.unoEn.value < (r.anosSiDiario + 1) * 365)
      && (r.unoEn.Some? && r.unoEn.value < 365 ==> r.anosSiDiario == 0)
  {
    if d > 0.0 {
      WholePartOfInverse(d, (1.0 / d).Floor);
    }
  }

  /** What `/calcular-probabilidad` can fail with inside its `try`: a density
      guard, or `categorias[i]` past the end of a shorter category list. */
  datatype CalculationError = DensityRefused(cause: DensityError) | CategoryMissing

  datatype ProbabilityReply =
    | ProbabilityRejected(cause: ValidationError)
    | ProbabilityFailed(error: CalculationError)
    | Calculated(esperadas: seq<real>, probabilidadExacta: real, coeficiente: real,
                 productoProbabilidades: real, interpretacion: Interpretation)

  /** `/calcular-probabilidad`: validation, then the density's guards, then
      the calculation. */
  method CalcularProbabilidad(n: int, categorias: seq<string>, ps: seq<real>, fs: seq<int>)
    returns (r: ProbabilityReply)
    ensures ValidarEntrada(ps, Some(fs), Some(n)).Some? ==>
              r == ProbabilityRejected(ValidarEntrada(ps, Some(fs), Some(n)).value)
    ensures ValidarEntrada(ps, Some(fs), Some(n)).None? && DensityGuard(n, fs, ps).Some? ==>
              r == ProbabilityFailed(DensityRefused(DensityGuard(n, fs, ps).value))
    ensures ValidarEntrada(ps, Some(fs), Some(n)).None? && DensityGuard(n, fs, ps).None? ==>
              (r.ProbabilityFailed? <==> |categorias| < Min(|ps|, |fs|))
    ensures ValidarEntrada(ps, Some(fs), Some(n)).None? && DensityGuard(n, fs, ps).None? ==>
              (r.ProbabilityFailed? ==> r.error == CategoryMissing)
    ensures ValidarEntrada(ps, Some(fs), Some(n)).None? && DensityGuard(n, fs, ps).None? ==>
              (|categorias| >= Min(|ps|, |fs|) ==> r.Calculated?)
    ensures r.Calculated? ==> NonNegative(fs) && AllPositive(ps) && Sum(fs) == n && CalculationOf(r, n, ps, fs)
  {
    var error := ValidarEntrada(ps, Some(fs), Some(n));
    if error.Some? {
      return ProbabilityRejected(error.value);
    }
    var refused := DensityGuard(n, fs, ps);
    if refused.Some? {
      return ProbabilityFailed(DensityRefused(refused.value));
    }
    r := Calculate(n, categorias, ps, fs);
  }

  /** The figures a successful `/calcular-probabilidad` reports: the expected
      counts, the exact probability (positive), the coefficient as a whole
      number of arrangements, the product of powers, and the interpretation.
      CalculationIsProduct shows probability = coefficient * product. */
  ghost predicate CalculationOf(r: ProbabilityReply, n: int, ps: seq<real>, fs: seq<int>)
    requires NonNegative(fs)
  {
    && r.Calculated?
    && r.esperadas == Expected(n, ps)
    && r.probabilidadExacta == Density(ps, fs) > 0.0
    && r.coeficiente == MultinomialCount(fs) as real
    && r.productoProbabilidades == ProdPow(ps, fs, Min(|ps|, |fs|))
    && r.interpretacion == Interpretar(r.probabilidadExacta)
  }

  /** The body of the `try` once the guards have passed: the coefficient,
      then the `producto_prob` loop, which indexes `categorias[i]` as it goes. */
  method Calculate(n: int, categorias: seq<string>, ps: seq<real>, fs: seq<int>)
    returns (r: ProbabilityReply)
    requires NonNegative(fs) && AllPositive(ps) && Sum(fs) == n
    ensures r.ProbabilityFailed? <==> |categorias| < Min(|ps|, |fs|)
    ensures r.ProbabilityFailed? ==> r.error == CategoryMissing
    ensures |categorias| >= Min(|ps|, |fs|) ==> r.Calculated?
    ensures r.Calculated? ==> CalculationOf(r, n, ps, fs)
  {
    var coef := CoeficienteMultinomial(n, fs);
    var productoProb := 1.0;
    var pairs := Min(|ps|, |fs|);
    var i := 0;
    while i < pairs
      invariant 0 <= i <= pairs
      invariant i <= |categorias|
      invariant productoProb == ProdPow(ps, fs, i)
    {
      if i >= |categorias| {
        return ProbabilityFailed(CategoryMissing);
      }
      productoProb := productoProb * Pow(ps[i], fs[i]);
      i := i + 1;
    }
    var densidad := Density(ps, fs);
    r := Calculated(Expected(n, ps), densidad, coef, productoProb, Interpretar(densidad));
    CalculationFigures(n, ps, fs, coef, productoProb);
  }

  /** The figures assembled from the coefficient and the product of powers
      make up a calculation. */
  lemma CalculationFigures(n: int, ps: seq<real>, fs: seq<int>, c: real, p: real)
    requires NonNegative(fs) && AllPositive(ps)
    requires c == MultinomialCount(fs) as real && p == ProdPow(ps, fs, Min(|ps|, |fs|))
    ensures CalculationOf(Calculated(Expected(n, ps), Density(ps, fs), c, p, Interpretar(Density(ps, fs))), n, ps, fs)
  {
    DensityPositive(ps, fs);
  }

  /** In a successful calculation the probability is the coefficient times
      the product of powers, as `calculo_completo` reports it. */
  lemma CalculationIsProduct(r: ProbabilityReply, n: int, ps: seq<real>, fs: seq<int>)
    requires NonNegative(fs) && CalculationOf(r, n, ps, fs)
    ensures r.probabilidadExacta == r.coeficiente * r.productoProbabilidades
  {
    DensityFromFactors(ps, fs, r.coeficiente, r.productoProbabilidades);
  }

  lemma DensityFromFactors(ps: seq<real>, fs: seq<int>, c: real, p: real)
    requires NonNegative(fs)
    requires c == MultinomialCount(fs) as real && p == ProdPow(ps, fs, Min(|ps|, |fs|))
    ensures Density(ps, fs) == c * p
  {
    assert Coefficient(fs) == c;
    DensityUnfold(ps, fs);
  }

  lemma DensityUnfold(ps: seq<real>, fs: seq<int>)
    requires NonNegative(fs)
    ensures Density(ps, fs) == Coefficient(fs) * ProdPow(ps, fs, Min(|ps|, |fs|))
  {
  }

  /** `num_simulaciones`: ten times the expected waiting time 1/d, clamped to
      [5000, 50000]; 10000 when the density is not positive. */
  function NumSimulaciones(d: real): (r: int)
    ensures 5000 <= r <= 50000
    ensures d <= 0.0 ==> r == 10000
    ensures d > 0.0 && 5000 < r < 50000 ==> r as real <= 10.0 / d < r as real + 1.0
    ensures d > 0.0 && 10.0 / d < 5000.0 ==> r == 5000
    ensures d > 0.0 && 10.0 / d >= 50000.0 ==> r == 50000
    ensures d > 0.0 && 5000.0 <= 10.0 / d < 50000.0 ==> r as real <= 10.0 / d < r as real + 1.0
  {
    if d > 0.0 then
      var t := (1.0 / d * 10.0).Floor;
      assert 1.0 / d * 10.0 == 10.0 / d;
      var atLeast := if 5000 > t then 5000 else t;
      if 50000 < atLeast then 50000 else atLeast
    else 10000
  }

  /** Likely configurations get the minimum number of runs, rare ones the
      maximum. */
  lemma NumSimulacionesClamps(d: real)
    ensures d >= 0.002 ==> NumSimulaciones(d) == 5000
    ensures 0.0 < d <= 0.0002 ==> NumSimulaciones(d) == 50000
  {
    if d >= 0.002 {
      InverseBound(d, 0.002, 500.0);
    }
    if 0.0 < d <= 0.0002 {
      InverseLowerBound(d, 0.0002, 5000.0);
    }
  }

  /** d >= a > 0 with a * b == 1 gives 1/d <= b. */
  lemma InverseBound(d: real, a: real, b: real)
    requires 0.0 < a <= d && a * b == 1.0
    ensures 1.0 / d * 10.0 <= b * 10.0
  {
    var inv := 1.0 / d;
    assert inv * d == 1.0;
    if inv > b {
      MultiplyMonotone(b, inv, d);
      MultiplyMonotone(a, d, b);
    }
  }

  /** 0 < d <= a with a * b == 1 gives 1/d >= b. */
  lemma InverseLowerBound(d: real, a: real, b: real)
    requires 0.0 < d <= a && a * b == 1.0
    ensures 1.0 / d * 10.0 >= b * 10.0
  {
    var inv := 1.0 / d;
    assert inv * d == 1.0;
    if inv < b {
      MultiplyMonotone(inv, b, d);
      MultiplyMonotone(d, a, b);
    }
  }

  /** `error_porcentual`: the relative error of the simulated estimate, in percent. */
  function ErrorPorcentual(simulada: real, teorica: real): (e: real)
    ensures teorica > 0.0 ==> e >= 0.0
    ensures teorica > 0.0 ==> (e == 0.0 <==> simulada == teorica)
    ensures teorica > 0.0 ==> e * teorica == Abs(simulada - teorica) * 100.0
    ensures teorica == 0.0 ==> e == 0.0
  {
    if teorica == 0.0 then 0.0 else Abs(simulada - teorica) / teorica * 100.0
  }

  datatype Concordance = Excelente | Buena | Regular | NoAplicable

  function Concordancia(teorica: real, errorPorcentual: real): Concordance
  {
    if teorica > 0.0 then
      if errorPorcentual < 10.0 then Excelente
      else if errorPorcentual < 25.0 then Buena
      else Regular
    else NoAplicable
  }

  /** The grade bands: under 10% excellent, under 25% good, otherwise fair;
      without a positive density there is no grade, and an exact match is
      always excellent. */
  lemma ConcordanciaBands(teorica: real, simulada: real)
    ensures var e := ErrorPorcentual(simulada, teorica);
      && (teorica > 0.0 ==> (Concordancia(teorica, e) == Excelente <==> e < 10.0))
      && (teorica > 0.0 ==> (Concordancia(teorica, e) == Buena <==> 10.0 <= e < 25.0))
      && (teorica > 0.0 ==> (Concordancia(teorica, e) == Regular <==> e >= 25.0))
      && (Concordancia(teorica, e) == NoAplicable <==> teorica <= 0.0)
      && (teorica > 0.0 && simulada == teorica ==> Concordancia(teorica, e) == Excelente)
  {
  }

  /** How many of the runs reproduce the desired frequencies exactly. */
  function Matches(ps: seq<real>, fs: seq<int>, n: int, runs: seq<seq<real>>): (r: nat)
    requires forall i :: 0 <= i < |runs| ==> |runs[i]| >= n
    ensures r <= |runs|
  {
    if runs == [] then 0
    else
      var run := runs[|runs| - 1];
      Matches(ps, fs, n, runs[..|runs| - 1])
        + (if Frequencies(Cumulative(ps), run[..Max0(n)]) == fs then 1 else 0)
  }

  lemma FractionInUnit(c: int, m: int)
    requires 0 <= c <= m && m > 0
    ensures 0.0 <= c as real / m as real <= 1.0
  {
    var q := c as real / m as real;
    assert q * m as real == c as real;
  }

  /** The counting loop of `/simular-verificacion`: simulate m runs and count
      those that reproduce the desired frequencies exactly. */
  method CountMatches(n: int, ps: seq<real>, fs: seq<int>, runs: seq<seq<real>>, m: nat)
    returns (contador: nat)
    requires m <= |runs|
    requires forall i :: 0 <= i < |runs| ==> |runs[i]| >= n
    ensures contador == Matches(ps, fs, n, runs[..m]) <= m
  {
    contador := 0;
    var s := 0;
    while s < m
      invariant 0 <= s <= m
      invariant contador == Matches(ps, fs, n, runs[..s])
    {
      var sim := SimularMultinomialSimple(n, ps, runs[s]);
      if sim == fs {
        contador := contador + 1;
      }
      assert runs[..s + 1][..s] == runs[..s];
      s := s + 1;
    }
  }

  datatype VerificationReply =
    | VerificationRejected(cause: ValidationError)
    | VerificationFailed(refused: DensityError)
    | Verified(numSimulaciones: int, exitosEncontrados: nat, probabilidadSimulada: real,
               probabilidadTeorica: real, diferenciaAbsoluta: real, errorPorcentual: real,
               concordancia: Concordance)

  /** `/simular-verificacion`, with `runs[s]` holding the draws of the s-th
      simulated run (50000 runs is the most it can ask for). */
  method SimularVerificacion(n: int, ps: seq<real>, fs: seq<int>, runs: seq<seq<real>>)
    returns (r: VerificationReply)
    requires |runs| >= 50000
    requires forall i :: 0 <= i < |runs| ==> |runs[i]| >= n
    ensures ValidarEntrada(ps, Some(fs), Some(n)).Some? ==>
              r == VerificationRejected(ValidarEntrada(ps, Some(fs), Some(n)).value)
    ensures ValidarEntrada(ps, Some(fs), Some(n)).None? && DensityGuard(n, fs, ps).Some? ==>
              r == VerificationFailed(DensityGuard(n, fs, ps).value)
    ensures r.Verified? <==> ValidarEntrada(ps, Some(fs), Some(n)).None? && DensityGuard(n, fs, ps).None?
    ensures r.Verified? ==>
              && NonNegative(fs)
              && r.probabilidadTeorica == Density(ps, fs)
              && r.numSimulaciones == NumSimulaciones(r.probabilidadTeorica)
              && r.exitosEncontrados == Matches(ps, fs, n, runs[..r.numSimulaciones])
              && r.probabilidadSimulada == r.exitosEncontrados as real / r.numSimulaciones as real
              && 0.0 <= r.probabilidadSimulada <= 1.0
              && r.diferenciaAbsoluta == Abs(r.probabilidadSimulada - r.probabilidadTeorica)
              && r.errorPorcentual == ErrorPorcentual(r.probabilidadSimulada, r.probabilidadTeorica)
              && r.concordancia == Concordancia(r.probabilidadTeorica, r.errorPorcentual)
              && r.concordancia != NoAplicable
  {
    var error := ValidarEntrada(ps, Some(fs), Some(n));
    if error.Some? {
      return VerificationRejected(error.value);
    }
    var refused := DensityGuard(n, fs, ps);
    if refused.Some? {
      return VerificationFailed(refused.value);
    }
    var densidad := Density(ps, fs);
    DensityPositive(ps, fs);
    var numSimulaciones := NumSimulaciones(densidad);
    var contador := CountMatches(n, ps, fs, runs, numSimulaciones);
    var simulada := contador as real / numSimulaciones as real;
    FractionInUnit(contador, numSimulaciones);
    var err := ErrorPorcentual(simulada, densidad);
    r := Verified(numSimulaciones, contador, simulada, densidad, Abs(simulada - densidad), err,
                  Concordancia(densidad, err));
  }
}
