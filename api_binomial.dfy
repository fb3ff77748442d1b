/** The back-end's counting endpoints `/binomial_puntual` and `/binomial`
    (Simulador/main.py:50-123): Bernoulli trials decided by `random.random() < p`,
    and the frequency table built with `Counter` over the per-experiment
    success counts, keyed in sorted order. The draws `random.random()` would
    return are supplied as sequences. */
module ApiBinomial {
  import opened Wrappers
  import opened Combinatorics
  import opened ApiGuards

  /** How many entries of s equal v. */
  function Count(s: seq<int>, v: int): (r: nat)
    ensures r <= |s|
    ensures r > 0 <==> v in s
  {
    if s == [] then 0
    else
      assert forall w :: w in s <==> w in s[..|s| - 1] || w == s[|s| - 1];
      Count(s[..|s| - 1], v) + (if s[|s| - 1] == v then 1 else 0)
  }

  /** How many draws fall below p: the successes of those trials. */
  function Successes(draws: seq<real>, p: real): (r: nat)
    ensures r <= |draws|
  {
    if draws == [] then 0
    else Successes(draws[..|draws| - 1], p) + (if draws[|draws| - 1] < p then 1 else 0)
  }

  /** `/binomial_puntual`: one trial per experiment, recorded as 1 or 0, with
      the success and failure tallies. */
  method BinomialPuntual(numExperimentos: int, p: real, draws: seq<real>)
    returns (resultados: seq<int>, exito: nat, fracaso: nat)
    requires |draws| >= numExperimentos
    ensures |resultados| == Max0(numExperimentos)
    ensures forall i :: 0 <= i < |resultados| ==> resultados[i] == (if draws[i] < p then 1 else 0)
    ensures exito == Count(resultados, 1) == Successes(draws[..|resultados|], p)
    ensures fracaso == Count(resultados, 0)
    ensures exito + fracaso == |resultados|
  {
    exito, fracaso := 0, 0;
    resultados := [];
    var i := 0;
    while i < Max0(numExperimentos)
      invariant 0 <= i <= Max0(numExperimentos)
      invariant |resultados| == i
      invariant forall k :: 0 <= k < i ==> resultados[k] == (if draws[k] < p then 1 else 0)
      invariant exito == Count(resultados, 1) == Successes(draws[..i], p)
      invariant fracaso == Count(resultados, 0)
      invariant exito + fracaso == i
    {
      var resultado := draws[i];
      var old_ := resultados;
      if resultado < p {
        exito := exito + 1;
        resultados := resultados + [1];
      } else {
        fracaso := fracaso + 1;
        resultados := resultados + [0];
      }
      assert resultados[..i] == old_;
      assert draws[..i + 1][..i] == draws[..i];
      i := i + 1;
    }
  }

  predicate StrictlyIncreasing(x: seq<int>)
  {
    forall i, j :: 0 <= i < j < |x| ==> x[i] < x[j]
  }

  predicate Distinct(s: seq<int>)
  {
    forall i, j :: 0 <= i < j < |s| ==> s[i] != s[j]
  }

  /** v placed into an increasing sequence that lacks it. */
  function Insert(v: int, r: seq<int>): (q: seq<int>)
    requires StrictlyIncreasing(r) && v !in r
    ensures StrictlyIncreasing(q)
    ensures forall w :: w in q <==> w == v || w in r
  {
    if r == [] then [v]
    else if v < r[0] then
      ConsIncreasing(v, r);
      [v] + r
    else
      assert forall w :: w in r[1..] ==> w in r;
      var tail := Insert(v, r[1..]);
      assert forall w :: w in r <==> w == r[0] || w in r[1..];
      ConsIncreasing(r[0], tail);
      [r[0]] + tail
  }

  /** A head below an increasing tail's first element keeps it increasing. */
  lemma ConsIncreasing(h: int, t: seq<int>)
    requires StrictlyIncreasing(t) && (t == [] || h < t[0])
    ensures StrictlyIncreasing([h] + t)
  {
  }

  /** `sorted(keys)` on distinct keys: the same keys in increasing order. */
  function Sorted(keys: seq<int>): (q: seq<int>)
    requires Distinct(keys)
    ensures StrictlyIncreasing(q)
    ensures forall w :: w in q <==> w in keys
  {
    if keys == [] then []
    else
      var init := keys[..|keys| - 1];
      assert forall w :: w in keys <==> w in init || w == keys[|keys| - 1];
      Insert(keys[|keys| - 1], Sorted(init))
  }

  /** The `datos` table: `Counter` tallies each result under its key, the keys
      kept in first-seen order as a dict keeps them; `x` is the sorted key list
      and `y[i]` says how many experiments gave `x[i]`. */
  method Histogram(resultados: seq<int>) returns (x: seq<int>, y: seq<nat>)
    ensures StrictlyIncreasing(x)
    ensures forall v :: v in x <==> v in resultados
    ensures |y| == |x| && forall i :: 0 <= i < |x| ==> y[i] == Count(resultados, x[i])
  {
    var conteo: map<int, nat> := map[];
    var claves: seq<int> := [];
    var i := 0;
    while i < |resultados|
      invariant 0 <= i <= |resultados|
      invariant Distinct(claves)
      invariant forall v :: v in claves <==> v in conteo
      invariant forall v :: v in conteo <==> v in resultados[..i]
      invariant forall v :: v in conteo ==> conteo[v] == Count(resultados[..i], v)
    {
      var v := resultados[i];
      if v in conteo {
        conteo := conteo[v := conteo[v] + 1];
      } else {
        conteo := conteo[v := 1];
        claves := claves + [v];
      }
      assert resultados[..i + 1][..i] == resultados[..i];
      i := i + 1;
    }
    assert resultados[..i] == resultados;
    x := Sorted(claves);
    assert forall j :: 0 <= j < |x| ==> x[j] in x;
    y := seq(|x|, j requires 0 <= j < |x| => conteo[x[j]]);
  }

  /** How many entries of s occur somewhere in x. */
  function CountIn(s: seq<int>, x: seq<int>): nat
  {
    if s == [] then 0
    else CountIn(s[..|s| - 1], x) + (if s[|s| - 1] in x then 1 else 0)
  }

  /** Adding a value not yet in x adds its count. */
  lemma {:induction false} CountInExtend(s: seq<int>, x: seq<int>, v: int)
    requires v !in x
    ensures CountIn(s, x + [v]) == CountIn(s, x) + Count(s, v)
  {
    if s != [] {
      CountInExtend(s[..|s| - 1], x, v);
    }
  }

  /** When every entry of s occurs in x, all of s is counted. */
  lemma {:induction false} CountInAll(s: seq<int>, x: seq<int>)
    requires forall v :: v in s ==> v in x
    ensures CountIn(s, x) == |s|
  {
    if s != [] {
      var init, last := s[..|s| - 1], s[|s| - 1];
      assert last in s;
      assert forall v :: v in init ==> v in s;
      CountInAll(init, x);
      assert CountIn(s, x) == CountIn(init, x) + 1;
    }
  }

  /** For distinct keys, the counts of the keys add up to CountIn. */
  lemma {:induction false} CountsSum(s: seq<int>, x: seq<int>, y: seq<nat>)
    requires StrictlyIncreasing(x)
    requires |y| == |x| && forall i :: 0 <= i < |x| ==> y[i] == Count(s, x[i])
    ensures Sum(y) == CountIn(s, x)
  {
    if x == [] {
      assert CountIn(s, []) == 0 by { CountInNoKeys(s); }
    } else {
      var xi, yi := x[..|x| - 1], y[..|y| - 1];
      CountsSum(s, xi, yi);
      assert x == xi + [x[|x| - 1]];
      CountInExtend(s, xi, x[|x| - 1]);
    }
  }

  lemma {:induction false} CountInNoKeys(s: seq<int>)
    ensures CountIn(s, []) == 0
  {
    if s != [] {
      CountInNoKeys(s[..|s| - 1]);
    }
  }

  /** The frequency column adds up to the number of experiments. */
  lemma HistogramTotal(resultados: seq<int>, x: seq<int>, y: seq<nat>)
    requires StrictlyIncreasing(x)
    requires forall v :: v in x <==> v in resultados
    requires |y| == |x| && forall i :: 0 <= i < |x| ==> y[i] == Count(resultados, x[i])
    ensures Sum(y) == |resultados|
  {
    CountsSum(resultados, x, y);
    CountInAll(resultados, x);
  }

  datatype BinomialReply =
    | Refused(refusal: Refusal)
    | Simulated(resultados: seq<int>, x: seq<int>, y: seq<nat>, totalExperimentos: int)

  /** `/binomial`: the size guard, then `num_pruebas` trials per experiment
      (`draws[e]` holds experiment e's draws), then the frequency table. */
  method Binomial(numExperimentos: int, p: real, numPruebas: int, draws: seq<seq<real>>)
    returns (r: BinomialReply)
    requires |draws| >= numExperimentos
    requires forall e :: 0 <= e < |draws| ==> |draws[e]| >= numPruebas
    ensures r.Refused? <==> BinomialGuard(numPruebas, numExperimentos).Some?
    ensures r.Refused? ==> r.refusal == Status400(TooLargeDetail)
    ensures r.Simulated? ==>
              && r.totalExperimentos == numExperimentos
              && |r.resultados| == Max0(numExperimentos)
              && (forall e :: 0 <= e < |r.resultados| ==>
                    r.resultados[e] == Successes(draws[e][..Max0(numPruebas)], p) <= Max0(numPruebas))
              && StrictlyIncreasing(r.x)
              && (forall v :: v in r.x <==> v in r.resultados)
              && |r.y| == |r.x|
              && (forall i :: 0 <= i < |r.x| ==> r.y[i] == Count(r.resultados, r.x[i]))
              && Sum(r.y) == Max0(numExperimentos)
  {
    var refusal := BinomialGuard(numPruebas, numExperimentos);
    if refusal.Some? {
      return Refused(refusal.value);
    }
    var resultados: seq<int> := [];
    var e := 0;
    while e < Max0(numExperimentos)
      invariant 0 <= e <= Max0(numExperimentos)
      invariant |resultados| == e
      invariant forall k :: 0 <= k < e ==> resultados[k] == Successes(draws[k][..Max0(numPruebas)], p)
    {
      var exitosEnPrueba := 0;
      var t := 0;
      while t < Max0(numPruebas)
        invariant 0 <= t <= Max0(numPruebas)
        invariant exitosEnPrueba == Successes(draws[e][..t], p)
      {
        if draws[e][t] < p {
          exitosEnPrueba := exitosEnPrueba + 1;
        }
        assert draws[e][..t + 1][..t] == draws[e][..t];
        t := t + 1;
      }
      resultados := resultados + [exitosEnPrueba];
      e := e + 1;
    }
    var x, y := Histogram(resultados);
    HistogramTotal(resultados, x, y);
    r := Simulated(resultados, x, y, numExperimentos);
  }
}
