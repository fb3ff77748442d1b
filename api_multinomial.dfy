/** The back-end's multinomial sampler `simular_multinomial_simple` and the
    `/multinomial` endpoint (Simulador/main.py:178-196, 217-235). The random
    numbers `random.random()` would return are supplied as a sequence of draws,
    one per experiment. */
module ApiMultinomial {
  import opened Wrappers
  import opened Combinatorics
  import opened ApiValidation

  /** `prob_acumuladas`: the running sums of the probabilities. */
  function Cumulative(ps: seq<real>): (c: seq<real>)
    ensures |c| == |ps|
  {
    if ps == [] then [] else Cumulative(ps[..|ps| - 1]) + [SumReal(ps)]
  }

  /** Entry j of the cumulative list is p_0 + ... + p_j. */
  lemma {:induction false} CumulativeIsPrefixSum(ps: seq<real>, j: int)
    requires 0 <= j < |ps|
    ensures Cumulative(ps)[j] == SumReal(ps[..j + 1])
  {
    if j < |ps| - 1 {
      var init := ps[..|ps| - 1];
      CumulativeIsPrefixSum(init, j);
      assert init[..j + 1] == ps[..j + 1];
    } else {
      assert ps[..j + 1] == ps;
    }
  }

  /** With positive probabilities the bounds strictly increase. */
  lemma {:induction false} CumulativeIncreasing(ps: seq<real>)
    requires AllPositive(ps)
    ensures forall j, k :: 0 <= j < k < |ps| ==> Cumulative(ps)[j] < Cumulative(ps)[k]
  {
    if ps != [] {
      var init := ps[..|ps| - 1];
      assert AllPositive(init);
      CumulativeIncreasing(init);
      if |ps| >= 2 {
        CumulativeIsPrefixSum(init, |init| - 1);
        assert init[..|init|] == init;
      }
    }
  }

  /** The inner search `for j, prob_acum in enumerate(...)`: the first bound at
      or above the draw, from position j on. */
  function BucketFrom(c: seq<real>, u: real, j: nat): (b: Option<nat>)
    requires j <= |c|
    ensures b.Some? ==> j <= b.value < |c| && u <= c[b.value]
    ensures b.Some? ==> forall k :: j <= k < b.value ==> u > c[k]
    ensures b.None? ==> forall k :: j <= k < |c| ==> u > c[k]
    decreases |c| - j
  {
    if j == |c| then None
    else if u <= c[j] then Some(j)
    else BucketFrom(c, u, j + 1)
  }

  /** The category a draw falls into, if any: the first j with u <= c[j]. */
  function Bucket(c: seq<real>, u: real): (b: Option<nat>)
    ensures b.Some? ==> b.value < |c| && u <= c[b.value] && forall k :: 0 <= k < b.value ==> u > c[k]
    ensures b.None? <==> forall k :: 0 <= k < |c| ==> u > c[k]
  {
    BucketFrom(c, u, 0)
  }

  /** With increasing bounds, category j receives exactly the draws in
      (c[j-1], c[j]] (and category 0 everything up to c[0]). */
  lemma BucketIsInterval(c: seq<real>, u: real, j: int)
    requires forall a, b :: 0 <= a < b < |c| ==> c[a] < c[b]
    requires 0 <= j < |c|
    ensures Bucket(c, u) == Some(j) <==> u <= c[j] && (j == 0 || c[j - 1] < u)
  {
    var b := Bucket(c, u);
    if u <= c[j] && (j == 0 || c[j - 1] < u) {
      assert b.Some?;
    }
  }

  /** `frecuencias[j] += 1` for the draw's category; a draw above every bound
      is not counted. */
  function Tally(fs: seq<nat>, b: Option<nat>): (r: seq<nat>)
    ensures |r| == |fs|
  {
    if b.Some? && b.value < |fs| then fs[b.value := fs[b.value] + 1] else fs
  }

  /** The frequencies after tallying the draws in order, from `[0] * k`. */
  function Frequencies(c: seq<real>, draws: seq<real>): (fs: seq<nat>)
    ensures |fs| == |c|
  {
    if draws == [] then seq(|c|, _ => 0)
    else Tally(Frequencies(c, draws[..|draws| - 1]), Bucket(c, draws[|draws| - 1]))
  }

  /** The number of draws that fall into some category. */
  function Landed(c: seq<real>, draws: seq<real>): (r: nat)
    ensures r <= |draws|
  {
    if draws == [] then 0
    else Landed(c, draws[..|draws| - 1]) + (if Bucket(c, draws[|draws| - 1]).Some? then 1 else 0)
  }

  /** `simular_multinomial_simple(n_experimentos, probabilidades)`, with the
      first n entries of `draws` standing for the n calls to `random.random()`. */
  method SimularMultinomialSimple(nExperimentos: int, probabilidades: seq<real>, draws: seq<real>)
    returns (frecuencias: seq<nat>)
    requires |draws| >= nExperimentos
    ensures frecuencias == Frequencies(Cumulative(probabilidades), draws[..Max0(nExperimentos)])
  {
    var k := |probabilidades|;
    frecuencias := seq(k, _ => 0);
    var probAcumuladas: seq<real> := [];
    var acum := 0.0;
    var i := 0;
    while i < k
      invariant 0 <= i <= k
      invariant probAcumuladas == Cumulative(probabilidades[..i])
      invariant acum == SumReal(probabilidades[..i])
    {
      assert probabilidades[..i + 1][..i] == probabilidades[..i];
      acum := acum + probabilidades[i];
      probAcumuladas := probAcumuladas + [acum];
      i := i + 1;
    }
    assert probabilidades[..i] == probabilidades;
    var m := Max0(nExperimentos);
    var t := 0;
    while t < m
      invariant 0 <= t <= m
      invariant frecuencias == Frequencies(probAcumuladas, draws[..t])
    {
      var randNum := draws[t];
      ghost var before := frecuencias;
      var j := 0;
      while j < |probAcumuladas|
        invariant 0 <= j <= |probAcumuladas|
        invariant frecuencias == before
        invariant forall q :: 0 <= q < j ==> randNum > probAcumuladas[q]
      {
        if randNum <= probAcumuladas[j] {
          frecuencias := frecuencias[j := frecuencias[j] + 1];
          break;
        }
        j := j + 1;
      }
      assert frecuencias == Tally(before, Bucket(probAcumuladas, randNum));
      assert draws[..t + 1][..t] == draws[..t];
      t := t + 1;
    }
  }

  lemma {:induction false} SumTally(fs: seq<nat>, j: nat)
    requires j < |fs|
    ensures Sum(fs[j := fs[j] + 1]) == Sum(fs) + 1
  {
    var g := fs[j := fs[j] + 1];
    if j < |fs| - 1 {
      assert g[..|g| - 1] == fs[..|fs| - 1][j := fs[j] + 1];
      SumTally(fs[..|fs| - 1], j);
    } else {
      assert g[..|g| - 1] == fs[..|fs| - 1];
    }
  }

  lemma {:induction false} SumZeros(k: nat)
    ensures Sum(seq(k, _ => 0)) == 0
  {
    if k > 0 {
      assert seq(k, _ => 0)[..k - 1] == seq(k - 1, _ => 0);
      SumZeros(k - 1);
    }
  }

  /** The frequencies add up to the number of draws that landed, which is at
      most the number of experiments. */
  lemma {:induction false} FrequenciesTotal(c: seq<real>, draws: seq<real>)
    ensures Sum(Frequencies(c, draws)) == Landed(c, draws)
  {
    if draws == [] {
      SumZeros(|c|);
    } else {
      var prev := Frequencies(c, draws[..|draws| - 1]);
      FrequenciesTotal(c, draws[..|draws| - 1]);
      var b := Bucket(c, draws[|draws| - 1]);
      if b.Some? {
        SumTally(prev, b.value);
      }
    }
  }

  /** Every draw at or below the last bound lands, so then the frequencies add
      up to the number of draws. With a probability sum below 1, which
      validation tolerates down to 0.99, draws above the sum are dropped. */
  lemma {:induction false} AllLand(c: seq<real>, draws: seq<real>)
    requires |c| >= 1
    requires forall i :: 0 <= i < |draws| ==> draws[i] <= c[|c| - 1]
    ensures Landed(c, draws) == |draws|
    ensures Sum(Frequencies(c, draws)) == |draws|
  {
    FrequenciesTotal(c, draws);
    if draws != [] {
      AllLand(c, draws[..|draws| - 1]);
    }
  }

  /** Draws from [0, 1) with probabilities summing to at least 1: every
      experiment is counted once. */
  lemma EveryDrawCounted(ps: seq<real>, draws: seq<real>)
    requires |ps| >= 1 && SumReal(ps) >= 1.0
    requires forall i :: 0 <= i < |draws| ==> 0.0 <= draws[i] < 1.0
    ensures Sum(Frequencies(Cumulative(ps), draws)) == |draws|
  {
    CumulativeIsPrefixSum(ps, |ps| - 1);
    assert ps[..|ps|] == ps;
    AllLand(Cumulative(ps), draws);
  }

  /** The number of draws whose category is j. */
  function Hits(c: seq<real>, draws: seq<real>, j: nat): nat
  {
    if draws == [] then 0
    else Hits(c, draws[..|draws| - 1], j) + (if Bucket(c, draws[|draws| - 1]) == Some(j) then 1 else 0)
  }

  /** Each frequency counts exactly the draws that fall into its category. */
  lemma {:induction false} FrequenciesCountHits(c: seq<real>, draws: seq<real>, j: nat)
    requires j < |c|
    ensures Frequencies(c, draws)[j] == Hits(c, draws, j)
  {
    if draws != [] {
      FrequenciesCountHits(c, draws[..|draws| - 1], j);
    }
  }

  /** A draw above the probability sum is counted nowhere: for p = [0.5, 0.495]
      and the draw 0.999 the frequencies are [0, 0]. */
  lemma DropsDrawAboveSum()
    ensures Frequencies(Cumulative([0.5, 0.495]), [0.999]) == [0, 0]
  {
    assert [0.5, 0.495][..1] == [0.5] && [0.5][..0] == [];
    assert Cumulative([0.5, 0.495]) == [0.5, 0.995];
    assert Bucket([0.5, 0.995], 0.999).None?;
    assert [0.999][..0] == [];
  }

  /** The `/multinomial` reply. Its HTTP 400 for invalid input is raised
      inside the `try`, caught by the generic `except Exception` and re-raised
      as an HTTP 500 whose detail embeds the validation message. */
  datatype MultinomialReply =
    | Simulated(nExperimentos: int, categorias: seq<string>, observadas: seq<nat>, esperadas: seq<real>)
    | ServerError(cause: ValidationError)

  /** `n * p` for every probability. */
  function Expected(n: int, ps: seq<real>): (e: seq<real>)
    ensures |e| == |ps| && forall i :: 0 <= i < |ps| ==> e[i] == n as real * ps[i]
  {
    seq(|ps|, i requires 0 <= i < |ps| => n as real * ps[i])
  }

  /** The expected frequencies add up to n times the probability sum. */
  lemma {:induction false} ExpectedTotal(n: int, ps: seq<real>)
    ensures SumReal(Expected(n, ps)) == n as real * SumReal(ps)
  {
    if ps != [] {
      var init := ps[..|ps| - 1];
      assert forall i :: 0 <= i < |init| ==> Expected(n, ps)[i] == Expected(n, init)[i];
      assert Expected(n, ps)[..|ps| - 1] == Expected(n, init);
      ExpectedTotal(n, init);
    }
  }

  method Multinomial(nExperimentos: int, categorias: seq<string>, probabilidades: seq<real>, draws: seq<real>)
    returns (r: MultinomialReply)
    requires |draws| >= nExperimentos
    ensures r.ServerError? <==> ValidarEntrada(probabilidades, None, None).Some?
    ensures r.ServerError? ==> Some(r.cause) == ValidarEntrada(probabilidades, None, None)
    ensures r.Simulated? ==>
              && r.nExperimentos == nExperimentos && r.categorias == categorias
              && r.observadas == Frequencies(Cumulative(probabilidades), draws[..Max0(nExperimentos)])
              && r.esperadas == Expected(nExperimentos, probabilidades)
  {
    var error := ValidarEntrada(probabilidades, None, None);
    if error.Some? {
      return ServerError(error.value);
    }
    var resultados := SimularMultinomialSimple(nExperimentos, probabilidades, draws);
    r := Simulated(nExperimentos, categorias, resultados, Expected(nExperimentos, probabilidades));
  }
}
