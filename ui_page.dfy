/** The front-end's page state (Simulador/static/js/simulador.js:14-16,
    187-222, 226-533): the last simulation result and its kind name, written
    together by the simulation handlers and cleared together by limpiarTodo;
    the download button exports that pair. */
module UiPage {
  import opened Wrappers
  import opened JsNumbers
  import opened Payloads
  import opened UiGuards
  import opened UiCsv

  /** What one request brought back: nothing (the fetch rejected), or a
      response with its `ok` flag and its body, parsed as JSON if it parses. */
  datatype Response = Unreachable | Received(ok: bool, body: Option<SimulationData>)

  /** The parsed inputs of each simulation panel's form. */
  datatype Form =
    | BernoulliForm(numExp: JsNum, p: JsNum)
    | BinomialForm(numExp: JsNum, p: JsNum, n: JsNum)
    | ExponencialForm(numExp: JsNum, rate: JsNum)
    | NormalForm(numExp: JsNum, mu: JsNum, sigma: JsNum)
    | GibbsForm
    | BivariadaForm(numExp: JsNum, muX: JsNum, muY: JsNum, sigmaX: JsNum, sigmaY: JsNum, rho: JsNum)

  /** The kind name a handler stores with its result. */
  function KindName(f: Form): (k: string)
    ensures k != "" && Exportable(k)
  {
    KindNames();
    match f
    case BernoulliForm(_, _) => "bernoulli"
    case BinomialForm(_, _, _) => "binomial"
    case ExponencialForm(_, _) => "exponencial"
    case NormalForm(_, _, _) => "normal"
    case GibbsForm => "gibbs"
    case BivariadaForm(_, _, _, _, _, _) => "normal-bivariada"
  }

  /** The validation prefix of the form's handler; the Gibbs sample button
      has none (it is enabled only after a successful validation request). */
  function FormGuard(f: Form): Option<FormError>
  {
    match f
    case BernoulliForm(numExp, p) => BernoulliGuard(numExp, p)
    case BinomialForm(numExp, p, n) => BinomialGuard(numExp, p, n)
    case ExponencialForm(numExp, rate) => ExponencialGuard(numExp, rate)
    case NormalForm(numExp, _, sigma) => NormalGuard(numExp, sigma)
    case GibbsForm => None
    case BivariadaForm(numExp, _, _, sigmaX, sigmaY, rho) => BivariadaGuard(numExp, sigmaX, sigmaY, rho)
  }

  /** The body a handler stores as the last result, if any. The Bernoulli,
      binomial, exponential and normal handlers store any body that parses,
      without looking at `response.ok`; the bivariate handler throws on a
      truthy `error` field; the Gibbs handler throws on a failed status and
      stores only a body whose `success` is true. */
  function Stored(f: Form, r: Response): (s: Option<SimulationData>)
    ensures s.Some? ==> r.Received? && r.body == s
    ensures !f.GibbsForm? && !f.BivariadaForm? && r.Received? ==> s == r.body
    ensures f.GibbsForm? && s.Some? ==> r.ok && s.value.success
    ensures f.GibbsForm? && r.Received? && r.ok && r.body.Some? && r.body.value.success ==> s == r.body
    ensures f.BivariadaForm? && r.Received? && r.body.Some? ==>
              (s.None? <==> r.body.value.error.Some? && r.body.value.error.value != "")
  {
    if r.Unreachable? || r.body.None? then None
    else
      var b := r.body.value;
      match f
      case GibbsForm => if r.ok && b.success then Some(b) else None
      case BivariadaForm(_, _, _, _, _, _) => if b.error.Some? && b.error.value != "" then None else Some(b)
      case _ => Some(b)
  }

  class Page {
    /** datosSimulacionActual */
    var lastData: Option<SimulationData>
    /** nombreSimulacionActual, "" when cleared */
    var lastKind: string

    /** The pair is set together and cleared together. */
    ghost predicate Valid()
      reads this
    {
      lastData.None? <==> lastKind == ""
    }

    constructor ()
      ensures Valid() && lastData == None && lastKind == ""
    {
      lastData := None;
      lastKind := "";
    }

    /** limpiarTodo (panel switch and reset buttons): clear both fields. */
    method LimpiarTodo()
      modifies this
      ensures Valid() && lastData == None && lastKind == ""
    {
      lastData := None;
      lastKind := "";
    }

    /** One click on a panel's simulate button: the guard runs first and a
        request is sent only if it passes; the last result changes only when
        the handler stores the response body, and then both fields change. */
    method Simulate(f: Form, response: Response) returns (requestSent: bool)
      requires Valid()
      modifies this
      ensures Valid()
      ensures requestSent <==> FormGuard(f).None?
      ensures requestSent && Stored(f, response).Some? ==>
                lastData == Stored(f, response) && lastKind == KindName(f)
      ensures !(requestSent && Stored(f, response).Some?) ==>
                lastData == old(lastData) && lastKind == old(lastKind)
    {
      if FormGuard(f).Some? {
        return false;
      }
      requestSent := true;
      var s := Stored(f, response);
      if s.Some? {
        lastData := s;
        lastKind := KindName(f);
      }
    }

    /** descargarCSV on the current pair. */
    method DescargarCsv() returns (e: Export)
      requires Valid()
      ensures lastData.None? ==> e == Alert(NoResultAlert)
      ensures e == ExportCsv(lastData, lastKind)
    {
      e := ExportCsv(lastData, lastKind);
    }
  }

  /** A rejected form never replaces the last result, and after any
      successful handler the pair holds that handler's kind, so the export
      never reports a missing result. */
  lemma StoredResultIsExportable(f: Form, response: Response)
    requires Stored(f, response).Some?
    ensures ExportCsv(Stored(f, response), KindName(f)) != Alert(NoResultAlert)
    ensures ExportCsv(Stored(f, response), KindName(f)) != Alert(NotImplementedAlert)
  {
    KindNames();
  }

  /** The binomial handler keeps even a refused request's body (such as the
      server's 400 reply for too large a job) as the last result; exporting
      it then throws instead of producing a file. */
  lemma RefusedBinomialIsStored(numExp: JsNum, p: JsNum, n: JsNum, detail: SimulationData)
    requires detail.resultadosIndividuales.None?
    ensures Stored(BinomialForm(numExp, p, n), Received(false, Some(detail))) == Some(detail)
    ensures ExportCsv(Some(detail), KindName(BinomialForm(numExp, p, n))) == Thrown
  {
    KindNames();
  }
}
