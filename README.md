# Simulador de densidades — a verified model of its core

The simulator is a small web application with two halves:

- a browser front-end (`Simulador/static/js/simulador.js`). It reads form fields and validates them. It sends simulation requests and keeps the last result with its kind name. It exports that result as CSV and maintains the two category editors of the multinomial panel.
- a FastAPI back-end (`Simulador/main.py`). It runs the Bernoulli, binomial and multinomial experiments. It computes the exact multinomial probability of a desired outcome, interprets how rare that outcome is and checks it by Monte Carlo. It also guards the exponential, normal and bivariate-normal endpoints.

This project models both halves in Dafny and proves what they compute.

- Front-end form values come from `parseInt` and `parseFloat`. They are modelled as `JsNum`: a number or NaN. Every ordered comparison with NaN is false, as in JavaScript.
- Floating-point values are modelled as exact reals.
- The random numbers `random.random()` would return are passed in as sequences of draws.
- Server replies are modelled as datatypes, one variant per outcome. HTTP statuses and `error` fields are carried as values.

Modules, one per file:

| module | file | what it holds |
|---|---|---|
| `Combinatorics` | combinatorics.dfy | reference factorial, Pascal binomial coefficient, multinomial count, and their identities |
| `JsNumbers`, `Text`, `Payloads`, `Wrappers` | js_numbers.dfy, text.dfy, payload.dfy, wrappers.dfy | JS numbers, `join`/split on a separator, response bodies, `Option` |
| `UiMath` | ui_math.dfy | front-end `factorial` / `combinations` |
| `UiCsv` | ui_csv.dfy | `descargarCSV` |
| `UiGuards` | ui_guards.dfy | validation prefixes of every submit handler, `checkProbSum` |
| `UiCategories` | ui_categories.dfy | the category editors (class `CategoryEditor`) |
| `UiPage` | ui_page.dfy | the page's last-result state (class `Page`): handlers, `limpiarTodo`, download |
| `ApiMath` | api_math.dfy | `factorial`, `coeficiente_multinomial` |
| `ApiValidation` | api_validation.dfy | `validar_entrada`, the density's own guards |
| `ApiMultinomial` | api_multinomial.dfy | `simular_multinomial_simple`, `/multinomial` |
| `ApiProbability` | api_probability.dfy | `/calcular-probabilidad`, rarity interpretation, `/simular-verificacion` |
| `ApiGuards` | api_guards.dfy | parameter checks of `/binomial`, `/exponencial`, `/normal`, `/normal_bivariada` |
| `ApiBinomial` | api_binomial.dfy | `/binomial_puntual`, `/binomial` and its frequency table |
| `GuardAgreement` | guard_agreement.dfy | how the browser's checks relate to the server's |

Where the documented behaviour and the code differ, the model follows the code:

- The Bernoulli, binomial, exponential and normal handlers keep any body that parses as JSON as the last result, whatever the HTTP status. They never look at `response.ok` (Simulador/static/js/simulador.js:243-245, 276-278, 306-308, 343-345). A refused request's error body therefore becomes the exportable result (`UiPage.RefusedBinomialIsStored`).
- The `/multinomial` endpoint raises its HTTP 400 for invalid input inside a `try` whose generic `except` re-raises every exception as an HTTP 500 (Simulador/main.py:220-235). The model's reply for invalid input is therefore `ServerError`.
- No handler stores the kind name `multinomial`. The CSV exporter's multinomial branch is modelled all the same, because `descargarCSV` implements it.
- `validar_entrada` accepts probability sums in [0.99, 1.01]. The density function then insists on `math.isclose(sum, 1, rel_tol=1e-9)`. A sum of 0.995 therefore passes validation and is then refused (`ApiValidation.ToleranceGap`).
- With such a sum below 1, `simular_multinomial_simple` drops every draw above the sum (`ApiMultinomial.DropsDrawAboveSum`).
- In exact arithmetic the "imposible" interpretation of a zero density cannot be reached once the guards pass (`ApiProbability.DensityPositive`). Only float underflow can reach it.
- `combinations` is never called by the page.
- `addCategoryProb` and `removeCategoryProb` do not call `checkProbSum`. The two editors keep separate counters, both starting at 3.

## Model

| member | source | states |
|---|---|---|
| Combinatorics.FactSplit | Simulador/static/js/simulador.js:48 | n! = C(n,k)·k!·(n−k)! for 0 ≤ k ≤ n, so the factorial quotient is Pascal's coefficient |
| Combinatorics.ChooseSymmetric | Simulador/static/js/simulador.js:39-49 | C(n,k) = C(n,n−k) |
| Combinatorics.MultinomialFactorization | Simulador/main.py:153-159 | (f1+…+fk)! = MultinomialCount(fs)·f1!…fk! for non-negative fs, so n!/∏fi! is a whole number |
| JsNumbers.SumAllIsNumber | Simulador/static/js/simulador.js:613 | a `reduce` sum of parsed fields is a number iff every field parsed |
| UiMath.Factorial | Simulador/static/js/simulador.js:29-37 | NaN exactly for negative n, otherwise n! (1 for 0 and 1); loop proved against Fact |
| UiMath.Combinations | Simulador/static/js/simulador.js:39-49 | 0 outside 0 ≤ k ≤ n; exactly C(n,k) for n ≤ 170; the n > 170 branch yields None |
| UiMath.QuotientIsChoose | Simulador/static/js/simulador.js:48 | n!/(k!(n−k)!) computed in the reals equals C(n,k) |
| UiMath.CombinationsSymmetric | Simulador/static/js/simulador.js:39-49 | combinations(n,k) = combinations(n,n−k) for every n, k |
| Text.SplitJoin | Simulador/static/js/simulador.js:140 | splitting `xs.join(c)` on c gives back xs when no element contains c |
| Text.NatToString | Simulador/static/js/simulador.js:1014 | the decimal text of n: non-empty digits that read back as n, with a leading zero only for 0 and a single digit iff n < 10 |
| UiCsv.ExportCsv | Simulador/static/js/simulador.js:133-170 | no result or no kind → the "run a simulation first" alert; a file is produced only for an implemented kind and is named `<kind>_simulacion.csv`; other kinds → "not implemented" alert |
| UiCsv.SingleColumnExport | Simulador/static/js/simulador.js:140-142 | bernoulli/binomial/exponencial/normal export their header then one line per value, in order, and read back as exactly those lines |
| UiCsv.SingleColumnMissing | Simulador/static/js/simulador.js:140-142 | a single-column kind whose array is absent throws instead of exporting |
| UiCsv.PairedExport | Simulador/static/js/simulador.js:143-163 | gibbs/bivariate: alert and no file unless both arrays resolve; otherwise header `x,y` and one `x_i,y_i` line per x, each splitting back into its two fields |
| UiCsv.ShapeResolution | Simulador/static/js/simulador.js:147-153 | the nested `samples.x/y` shape and the flat `valores_x/y` shape export the same file |
| UiCsv.MultinomialExport | Simulador/static/js/simulador.js:164-168 | the multinomial file is its header then one `cat,observed,expected` line per category, index-aligned |
| UiGuards.BernoulliGuard | Simulador/static/js/simulador.js:233-240 | p outside [0,1] is reported first, then a non-positive count; passes iff neither test fires |
| UiGuards.BernoulliGuardOnNumbers | Simulador/static/js/simulador.js:233-240 | on parsed numbers the guard passes iff 0 ≤ p ≤ 1 and n > 0 |
| UiGuards.BernoulliGuardPassesNaN | Simulador/static/js/simulador.js:233-240 | blank fields (NaN) pass the Bernoulli guard, and a count (parsed by `parseInt`) passes beside a blank probability |
| UiGuards.BinomialGuard | Simulador/static/js/simulador.js:261-272 | passes iff p ∈ [0,1] and n and the simulation count are positive integers; p checked first, then n, then the count |
| UiGuards.BinomialGuardAccepts | Simulador/static/js/simulador.js:261-272 | every well-formed binomial form passes |
| UiGuards.ExponencialGuard | Simulador/static/js/simulador.js:295-302 | a non-positive rate is reported first, otherwise a bad count; passes iff rate not ≤ 0 and count a positive integer |
| UiGuards.NormalGuard | Simulador/static/js/simulador.js:331-338 | a non-positive sigma is reported first, otherwise a bad count; passes iff sigma not ≤ 0 and count a positive integer |
| UiGuards.BivariadaGuard | Simulador/static/js/simulador.js:494-505 | sigmas, then rho ∈ [−1,1], then count, each reported when the earlier checks pass; passes iff all hold |
| UiGuards.SumWarningVisible | Simulador/static/js/simulador.js:589-600 | the warning shows iff the sum (blank fields as 0) is above 1.01 or below 0.99 |
| UiGuards.BlankProbabilityPassesAsWritten | Simulador/static/js/simulador.js:613-617 | with a blank probability the warning is on, yet the submit test as written lets the list through |
| UiGuards.ProbSumRejectsMatchesWarning | Simulador/static/js/simulador.js:589-617 | the corrected submit test rejects every list with a blank field, and on parsed fields rejects exactly when the warning is visible |
| UiGuards.SimularMultinomialGuard | Simulador/static/js/simulador.js:613-617 | the list is refused (with the sum message) iff the corrected tolerance test rejects it; a passing list has a numeric sum within [0.99, 1.01] |
| UiGuards.CalcularProbabilidadGuard | Simulador/static/js/simulador.js:729-740 | a bad probability sum is reported first, then a frequency sum that differs from n; passes iff neither, and then the sum is numeric in [0.99,1.01] and the frequencies add up to n |
| UiGuards.CalcularProbabilidadRejects | Simulador/static/js/simulador.js:729-740 | probabilities summing to 1.02 and frequencies missing n are each rejected with their message; a correct form passes |
| UiCategories.DefaultRow | Simulador/static/js/simulador.js:1005-1018 | the added row carries the counter as its index, the name `Cat` followed by the decimal of counter + 1, probability 0.1 and a desired frequency only in the calculator editor |
| UiCategories.RemoveAbsent | Simulador/static/js/simulador.js:545-546 | removing an index no row carries changes nothing |
| UiCategories.RemoveAt | Simulador/static/js/simulador.js:545-546 | removal deletes exactly the first row carrying the index and keeps the others in order |
| UiCategories.RemoveIndexKeepsRowsOk | Simulador/static/js/simulador.js:539-548 | removal keeps the rows well numbered and removes at most one row |
| UiCategories.CategoryEditor.constructor | Simulador/static/js/simulador.js:536-537 | the counter starts at 3 over the initial rows; the sum warning is computed once |
| UiCategories.CategoryEditor.Add | Simulador/static/js/simulador.js:998-1025 | appends the default row numbered by the counter, advances the counter, keeps the warning in step with the sum |
| UiCategories.CategoryEditor.Remove | Simulador/static/js/simulador.js:579-587 | with two rows or fewer: alert, nothing changes; otherwise the row with that index goes; the counter never changes |
| UiCategories.CategoryEditor.EditProbability | Simulador/static/js/simulador.js:602-606 | only that row's probability changes, and the simulate editor's warning follows the new sum |
| UiPage.KindName | Simulador/static/js/simulador.js:245 | every handler's kind name is non-empty and exportable |
| UiPage.Stored | Simulador/static/js/simulador.js:226-533 | the four simple handlers store any parsed body; Gibbs stores a body exactly when the reply is ok and `success` is true; bivariate drops a body with a non-empty error |
| UiPage.Page.constructor | Simulador/static/js/simulador.js:15-16 | the page starts with no result and an empty kind |
| UiPage.Page.LimpiarTodo | Simulador/static/js/simulador.js:187-200 | clears the result and the kind together |
| UiPage.Page.Simulate | Simulador/static/js/simulador.js:226-533 | a request goes out iff the form's guard passes; the result and the kind change together, only when the handler stores the body |
| UiPage.Page.DescargarCsv | Simulador/static/js/simulador.js:222 | the download button exports the current pair; with no result it alerts |
| UiPage.StoredResultIsExportable | Simulador/static/js/simulador.js:133-170 | after a handler stores a result, the export never says "no result" or "not implemented" |
| UiPage.RefusedBinomialIsStored | Simulador/static/js/simulador.js:276-278 | an HTTP-error body is stored as the binomial result and its export then throws |
| ApiMath.Factorial | Simulador/main.py:143-150 | 1 for every n ≤ 1, otherwise n!; loop proved against Fact |
| ApiMath.CoeficienteMultinomial | Simulador/main.py:153-159 | n!/∏fi!, which is exactly the number of arrangements when the fs are a composition of n |
| ApiMath.TwoGroupsAreBinomial | Simulador/main.py:153-159 | with two groups the coefficient is C(n,k), in either order |
| ApiValidation.ValidarEntrada | Simulador/main.py:199-214 | checks in order sum range, positivity, frequency sum, frequency sign, each rule reported when the earlier ones pass; None iff all pass; the frequency checks only when both optionals are given |
| ApiValidation.DensityGuard | Simulador/main.py:162-169 | the frequency sum is checked first; passes iff the sum is n, the probability sum is within rel 1e-9 of 1 and all p > 0 |
| ApiValidation.DensityGuardIsStricter | Simulador/main.py:162-169 | every input the density accepts also passes `validar_entrada` |
| ApiValidation.ToleranceGap | Simulador/main.py:202 | p = [0.5, 0.495] passes validation but is refused by the density |
| ApiMultinomial.CumulativeIsPrefixSum | Simulador/main.py:183-187 | entry j of the running sums is p0+…+pj |
| ApiMultinomial.CumulativeIncreasing | Simulador/main.py:183-187 | with positive probabilities the running sums strictly increase |
| ApiMultinomial.Bucket | Simulador/main.py:191-194 | the first category whose running sum is at or above the draw, or none |
| ApiMultinomial.BucketIsInterval | Simulador/main.py:191-194 | category j receives exactly the draws in (c[j−1], c[j]] |
| ApiMultinomial.SimularMultinomialSimple | Simulador/main.py:178-196 | the frequencies equal tallying each of the first n draws into its bucket |
| ApiMultinomial.FrequenciesTotal | Simulador/main.py:189-194 | the frequencies add up to the number of draws that land |
| ApiMultinomial.EveryDrawCounted | Simulador/main.py:189-194 | with draws in [0,1) and a probability sum ≥ 1 the frequencies add up to the number of experiments |
| ApiMultinomial.FrequenciesCountHits | Simulador/main.py:191-193 | each frequency counts exactly the draws falling into its category |
| ApiMultinomial.DropsDrawAboveSum | Simulador/main.py:191-194 | with p = [0.5, 0.495] the draw 0.999 is counted nowhere |
| ApiMultinomial.Expected | Simulador/main.py:226 | each expected frequency is n·p_i |
| ApiMultinomial.ExpectedTotal | Simulador/main.py:226 | the expected frequencies add up to n·Σp |
| ApiMultinomial.Multinomial | Simulador/main.py:217-235 | invalid probabilities give a server error carrying the validation cause; otherwise the reply echoes n and the categories with the simulated and expected frequencies |
| ApiProbability.DensityPositive | Simulador/main.py:269 | with non-negative counts and positive probabilities the density is positive |
| ApiProbability.RarityBands | Simulador/main.py:273-286 | each rarity class is exactly one interval of densities |
| ApiProbability.RarityMonotone | Simulador/main.py:273-286 | a smaller density is never classed as more common |
| ApiProbability.Interpretar | Simulador/main.py:268-300 | the rarity is the density's class; a zero (or negative) density gives percent 0, no "one in" figure, "imposible" and 0 years |
| ApiProbability.InterpretationFigures | Simulador/main.py:269-293 | for a positive density d: percent = 100·d; "one in" q satisfies q·d ≤ 1 < (q+1)·d; years y satisfy 365·y ≤ q < 365·(y+1) from q = 365 on, and are 0 below |
| ApiProbability.CalcularProbabilidad | Simulador/main.py:238-319 | validation errors come first, then the density's refusals, then a missing category; once both checks pass, enough categories always give a success carrying the positive exact density, the coefficient, the product and the interpretation of that density |
| ApiProbability.Calculate | Simulador/main.py:252-266 | fails (with the missing-category error) iff there are fewer categories than (p, f) pairs; otherwise always succeeds, reporting the expected counts, the exact density, the coefficient, the product and the interpretation |
| ApiProbability.NumSimulaciones | Simulador/main.py:336-339 | min(50000, max(5000, ⌊10/d⌋)) for d > 0: 5000 when 10/d < 5000, 50000 when 10/d ≥ 50000, ⌊10/d⌋ in between; 10000 without a positive density |
| ApiProbability.NumSimulacionesClamps | Simulador/main.py:337 | d ≥ 0.002 gives 5000 runs; 0 < d ≤ 0.0002 gives 50000 |
| ApiProbability.ErrorPorcentual | Simulador/main.py:355-356 | for a positive theory e·t = abs(s − t)·100, so e = abs(s − t)/t·100, non-negative and zero iff the estimate equals the theory; 0 when the theory is 0 |
| ApiProbability.ConcordanciaBands | Simulador/main.py:359-367 | under 10% excellent, under 25% good, else fair; "not applicable" iff no positive density; an exact match is excellent |
| ApiProbability.CalculationIsProduct | Simulador/main.py:253-266 | in every successful reply the exact probability is the multinomial coefficient times the product of pᵢ^kᵢ |
| ApiProbability.CountMatches | Simulador/main.py:341-345 | the success counter is the number of runs whose simulated frequencies equal the wanted ones, and is at most the number of runs |
| ApiProbability.SimularVerificacion | Simulador/main.py:322-376 | a verified reply exists iff both checks pass; it reports the positive exact density, a clamped run count, the matching runs among them, a simulated fraction in [0,1] and its graded error |
| ApiGuards.ExponencialGuard | Simulador/main.py:390-391 | refused with HTTP 400 iff the rate is not positive |
| ApiGuards.NormalGuard | Simulador/main.py:431-432 | refused with HTTP 400 iff sigma is not positive |
| ApiGuards.BinomialGuard | Simulador/main.py:91-92 | refused with HTTP 400 iff both trials > 10000 and experiments > 1000 |
| ApiGuards.BivariadaGuard | Simulador/main.py:1002-1009 | sigmas, then rho, then count, each with its own error message and each reported when the earlier checks pass; None iff all hold |
| ApiBinomial.Count | Simulador/main.py:101 | a count is at most the length and positive iff the value occurs |
| ApiBinomial.BinomialPuntual | Simulador/main.py:50-74 | one 1/0 per experiment according to draw < p; successes and failures count the 1s and 0s and add up to the experiments |
| ApiBinomial.Sorted | Simulador/main.py:102 | the keys in strictly increasing order, same set |
| ApiBinomial.Histogram | Simulador/main.py:101-105 | x holds the distinct results in increasing order and y[i] counts how many experiments gave x[i] |
| ApiBinomial.HistogramTotal | Simulador/main.py:101-105 | the frequency column adds up to the number of experiments |
| ApiBinomial.Binomial | Simulador/main.py:87-123 | refused iff too large; otherwise each result is the successes among that experiment's trials, and the table is sorted, complete and sums to the experiment count |
| GuardAgreement.ExponencialGuardsAgree | Simulador/main.py:390-391 | an exponential form the browser accepts passes the server's rate check; a rate the server refuses the browser refuses as a non-positive rate |
| GuardAgreement.NormalGuardsAgree | Simulador/main.py:431-432 | a normal form the browser accepts passes the server's sigma check; a sigma the server refuses the browser refuses as a non-positive sigma |
| GuardAgreement.BivariadaGuardsAgree | Simulador/main.py:1002-1009 | a bivariate form the browser accepts passes all three of the server's checks |
| GuardAgreement.BinomialLimitOnlyOnServer | Simulador/main.py:91-92 | 10001 trials × 1001 experiments pass the browser's checks and are refused by the server |
| GuardAgreement.ProbabilitySumChecksAgree | Simulador/main.py:199-203 | on parsed probabilities the corrected browser check and the server's first rule accept the same lists |

## Left out

- DOM rendering, Plotly charts, HTML text, navigation and panel toggling (`mostrarResultados`, `actualizarVisibilidadPaneles`, chart traces): presentation only.
- `fetch`, `async`/`await` and JSON parsing are collapsed into a `Response` value: the network is outside the model.
- The Gibbs sampler (`/validate`, `/sample`, sympy parsing, the sampler itself) is left out. Only the page's rule for storing a Gibbs result is modelled: it needs a successful status and `success` true.
- The `/multinomial` and `/calcular-probabilidad` result pages and the verification panel (`verificarSimulacion`, `ultimoCalculo`) are left out: they only display the replies modelled above.
- Sampling for `/exponencial`, `/normal` (Box–Muller) and `/normal_bivariada` is left out, as are numpy's mean, deviation, minimum and maximum: floating-point transcendental functions. Their parameter guards are modelled.
- Randomness: `random.random()` is replaced by draws given as input.
- Floating point: sums, products and quotients are exact reals. Rounding, infinities, overflow and `OverflowError` from huge integer quotients are not represented.
- ApiProbability.CalcularProbabilidad: the density is the exact value n!/∏kᵢ!·∏pᵢ^kᵢ, not its `lgamma`/`log`/`exp` float approximation. Float underflow to zero, which leads to the "imposible" branch, is therefore not captured.
- UiMath.Combinations: the n > 170 branch, which approximates through logarithms and `Math.round`, yields `None`.
- Number formatting (`toFixed`, `{:.6f}`, thousands separators) and the text of formatted messages are not modelled. Errors carry their values instead (for example `SumOutOfRange(suma)`). `detalles_calculo` and `calculo_completo` are formatting of values the model already reports.
- CSV values are carried as the text JavaScript prints for them. The conversion of numbers to text is not modelled.
- UiCategories.CategoryEditor.EditProbability: edits to names and desired frequencies change nothing the model observes and are not modelled.
- `limpiarTodo`'s clearing of the charts and of the result container is not modelled. Only the result state is.

## Findings

| source | as written | input that shows it | evidently intended | confidence | as-written member | corrected member |
|---|---|---|---|---|---|---|
| Simulador/static/js/simulador.js:613-617 | `Math.abs(suma - 1) > 0.01` on a plain `reduce` sum; a blank field makes the sum NaN, the test false, and the request is sent | probabilities `0.5` and blank: the warning of checkProbSum is shown, yet simularMultinomial posts the list | reject unless the sum is a number within 0.01 of 1 | medium, not executed | UiGuards.BlankProbabilityPassesAsWritten | UiGuards.SimularMultinomialGuard |
| Simulador/static/js/simulador.js:729-735 | the same test in calcularProbabilidad lets a list with a blank probability through to the frequency check | probabilities `0.5` and blank, frequencies summing to n | reject the blank probability as an off sum | medium, not executed | UiGuards.BlankProbabilityPassesAsWritten | UiGuards.CalcularProbabilidadGuard |
