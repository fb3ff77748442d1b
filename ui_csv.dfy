/** The front-end's CSV exporter `descargarCSV`
    (Simulador/static/js/simulador.js:133-178): it picks columns by the kind of
    the last simulation and writes comma-separated, LF-delimited, unquoted text.
    The Blob/anchor download itself is represented by the `Download` outcome. */
module UiCsv {
  import opened Wrappers
  import opened Text
  import opened Payloads

  /** What one click on the download button does: one alert, one file, or an
      uncaught TypeError from reading a field of a missing array. */
  datatype Export = Alert(message: string) | Download(fileName: string, content: string) | Thrown

  const NoResultAlert := "Primero debes ejecutar una simulación."
  const NoSamplesAlert := "Error: No se encontraron datos de muestra para exportar."
  const NotImplementedAlert := "Descarga no implementada."
  const MultinomialHeader := "Categoria,Frecuencia_Observada,Frecuencia_Esperada"

  /** The cases of the exporter's `switch` on the kind name. */
  datatype Kind = Bernoulli | Binomial | Exponencial | Normal | Gibbs | Bivariada | Multinomial | Other

  function KindOf(kind: string): Kind
  {
    if kind == "bernoulli" then Bernoulli
    else if kind == "binomial" then Binomial
    else if kind == "exponencial" then Exponencial
    else if kind == "normal" then Normal
    else if kind == "gibbs" then Gibbs
    else if kind == "normal-bivariada" then Bivariada
    else if kind == "multinomial" then Multinomial
    else Other
  }

  /** Each implemented kind name selects its own case. */
  lemma KindNames()
    ensures KindOf("bernoulli") == Bernoulli && KindOf("binomial") == Binomial
    ensures KindOf("exponencial") == Exponencial && KindOf("normal") == Normal
    ensures KindOf("gibbs") == Gibbs && KindOf("normal-bivariada") == Bivariada
    ensures KindOf("multinomial") == Multinomial
  {
  }

  /** The kinds whose export is implemented. */
  predicate Exportable(kind: string)
  {
    KindOf(kind) != Other
  }

  /** `header + '\n' + values.join('\n')`. */
  function Column(header: string, values: seq<string>): string
  {
    header + "\n" + Join(values, '\n')
  }

  /** `(samples && samples.x) ? samples.x : valores_x`: the nested Gibbs shape
      first, the flat bivariate-normal shape otherwise. */
  function PairedX(d: SimulationData): Option<seq<string>>
  {
    if d.samples.Some? && d.samples.value.x.Some? then d.samples.value.x else d.valoresX
  }

  function PairedY(d: SimulationData): Option<seq<string>>
  {
    if d.samples.Some? && d.samples.value.y.Some? then d.samples.value.y else d.valoresY
  }

  /** `${ys[i]}`: the element's text, or "undefined" past the end. */
  function Cell(ys: seq<string>, i: int): string
  {
    if 0 <= i < |ys| then ys[i] else "undefined"
  }

  /** `xs.map((val, i) => `${val},${ys[i]}`)`. */
  function PairRows(xs: seq<string>, ys: seq<string>): (r: seq<string>)
    ensures |r| == |xs|
  {
    seq(|xs|, i requires 0 <= i < |xs| => xs[i] + "," + Cell(ys, i))
  }

  /** `categorias.map((cat, i) => `${cat},${obs[i]},${esp[i]}`)`. */
  function MultinomialRows(cats: seq<string>, obs: seq<string>, esp: seq<string>): (r: seq<string>)
    ensures |r| == |cats|
  {
    seq(|cats|, i requires 0 <= i < |cats| => cats[i] + "," + Cell(obs, i) + "," + Cell(esp, i))
  }

  /** A single-column export reads one array; a missing one throws. */
  function ColumnExport(fileName: string, header: string, values: Option<seq<string>>): Export
  {
    if values.None? then Thrown else Download(fileName, Column(header, values.value))
  }

  /** `descargarCSV()` on the page's last result `data` and kind name `kind`. */
  function ExportCsv(data: Option<SimulationData>, kind: string): (r: Export)
    ensures data.None? || kind == "" ==> r == Alert(NoResultAlert)
    ensures r.Download? ==> r.fileName == kind + "_simulacion.csv" && Exportable(kind)
    ensures data.Some? && kind != "" && !Exportable(kind) ==> r == Alert(NotImplementedAlert)
  {
    if data.None? || kind == "" then Alert(NoResultAlert)
    else
      var d, fileName := data.value, kind + "_simulacion.csv";
      match KindOf(kind)
      case Bernoulli => ColumnExport(fileName, "Resultado", d.resultadosIndividuales)
      case Binomial => ColumnExport(fileName, "Numero_Exitos", d.resultadosIndividuales)
      case Exponencial | Normal => ColumnExport(fileName, "Valor", d.valores)
      case Gibbs | Bivariada =>
        var xs, ys := PairedX(d), PairedY(d);
        if xs.Some? && ys.Some? then Download(fileName, "x,y\n" + Join(PairRows(xs.value, ys.value), '\n'))
        else Alert(NoSamplesAlert)
      case Multinomial =>
        if d.categorias.None? then Thrown
        else if |d.categorias.value| > 0 && (d.frecuenciasObservadas.None? || d.frecuenciasEsperadas.None?) then Thrown
        else
          var obs := if d.frecuenciasObservadas.Some? then d.frecuenciasObservadas.value else [];
          var esp := if d.frecuenciasEsperadas.Some? then d.frecuenciasEsperadas.value else [];
          Download(fileName, MultinomialHeader + "\n" + Join(MultinomialRows(d.categorias.value, obs, esp), '\n'))
      case Other => Alert(NotImplementedAlert)
  }

  /** A header followed by a non-empty body reads back as one line each. */
  lemma ColumnLines(header: string, values: seq<string>)
    requires |values| >= 1 && Free(header, '\n') && AllFree(values, '\n')
    ensures Split(Column(header, values), '\n') == [header] + values
  {
    JoinCons(header, values, '\n');
    assert AllFree([header] + values, '\n');
    SplitJoin([header] + values, '\n');
  }

  /** The four single-column kinds: the header, then one line per value in
      input order, in a file named after the kind. */
  lemma SingleColumnExport(d: SimulationData, kind: string, header: string, values: seq<string>)
    requires || (kind == "bernoulli" && header == "Resultado" && d.resultadosIndividuales == Some(values))
             || (kind == "binomial" && header == "Numero_Exitos" && d.resultadosIndividuales == Some(values))
             || (kind == "exponencial" && header == "Valor" && d.valores == Some(values))
             || (kind == "normal" && header == "Valor" && d.valores == Some(values))
    ensures ExportCsv(Some(d), kind) == Download(kind + "_simulacion.csv", Column(header, values))
    ensures |values| >= 1 && AllFree(values, '\n') ==>
              Split(ExportCsv(Some(d), kind).content, '\n') == [header] + values
  {
    KindNames();
    if |values| >= 1 && AllFree(values, '\n') {
      ColumnLines(header, values);
    }
  }

  /** A single-column kind whose array is missing throws instead of exporting. */
  lemma SingleColumnMissing(d: SimulationData, kind: string)
    requires || (kind in {"bernoulli", "binomial"} && d.resultadosIndividuales.None?)
             || (kind in {"exponencial", "normal"} && d.valores.None?)
    ensures ExportCsv(Some(d), kind) == Thrown
  {
    KindNames();
  }

  /** Paired kinds: an alert and no file unless both arrays resolve; otherwise
      the header `x,y`, then one `x_i,y_i` line per element of x. */
  lemma PairedExport(d: SimulationData, kind: string)
    requires kind == "gibbs" || kind == "normal-bivariada"
    ensures PairedX(d).None? || PairedY(d).None? ==> ExportCsv(Some(d), kind) == Alert(NoSamplesAlert)
    ensures PairedX(d).Some? && PairedY(d).Some? ==>
      var xs, ys := PairedX(d).value, PairedY(d).value;
      var r := ExportCsv(Some(d), kind);
      && r == Download(kind + "_simulacion.csv", Column("x,y", PairRows(xs, ys)))
      && (|xs| >= 1 && AllFree(xs, '\n') && AllFree(xs, ',') && AllFree(ys, '\n') && AllFree(ys, ',') ==>
           var lines := Split(r.content, '\n');
           && |lines| == |xs| + 1 && lines[0] == "x,y"
           && forall i :: 0 <= i < |xs| ==> Split(lines[i + 1], ',') == [xs[i], Cell(ys, i)])
  {
    KindNames();
    if PairedX(d).Some? && PairedY(d).Some? {
      var xs, ys := PairedX(d).value, PairedY(d).value;
      if |xs| >= 1 && AllFree(xs, '\n') && AllFree(xs, ',') && AllFree(ys, '\n') && AllFree(ys, ',') {
        PairRowsRead(xs, ys);
        ColumnLines("x,y", PairRows(xs, ys));
      }
    }
  }

  /** Every `x_i,y_i` line is one line and splits back into its two fields. */
  lemma PairRowsRead(xs: seq<string>, ys: seq<string>)
    requires AllFree(xs, '\n') && AllFree(xs, ',') && AllFree(ys, '\n') && AllFree(ys, ',')
    ensures AllFree(PairRows(xs, ys), '\n')
    ensures forall i :: 0 <= i < |xs| ==> Split(PairRows(xs, ys)[i], ',') == [xs[i], Cell(ys, i)]
  {
    var rows := PairRows(xs, ys);
    forall i | 0 <= i < |xs|
      ensures Free(rows[i], '\n') && Split(rows[i], ',') == [xs[i], Cell(ys, i)]
    {
      PairRow(xs[i], Cell(ys, i));
    }
  }

  /** The nested and the flat sample shapes export the same file. */
  lemma ShapeResolution(base: SimulationData, kind: string, xs: seq<string>, ys: seq<string>)
    requires kind == "gibbs" || kind == "normal-bivariada"
    ensures ExportCsv(Some(base.(samples := Some(Samples(Some(xs), Some(ys))))), kind)
         == ExportCsv(Some(base.(samples := None, valoresX := Some(xs), valoresY := Some(ys))), kind)
         == Download(kind + "_simulacion.csv", "x,y\n" + Join(PairRows(xs, ys), '\n'))
  {
    KindNames();
  }

  /** One `a,b` line splits back into its two fields. */
  lemma PairRow(a: string, b: string)
    requires Free(a, ',') && Free(a, '\n') && Free(b, ',') && Free(b, '\n')
    ensures Free(a + "," + b, '\n') && Split(a + "," + b, ',') == [a, b]
  {
    var fields := [a, b];
    assert Join(fields, ',') == a + "," + b;
    SplitJoin(fields, ',');
    JoinFree(fields, ',', '\n');
  }

  /** One `a,b,c` line splits back into its three fields. */
  lemma TripleRow(a: string, b: string, c: string)
    requires Free(a, ',') && Free(a, '\n') && Free(b, ',') && Free(b, '\n') && Free(c, ',') && Free(c, '\n')
    ensures Free(a + "," + b + "," + c, '\n') && Split(a + "," + b + "," + c, ',') == [a, b, c]
  {
    var fields := [a, b, c];
    assert fields[1..] == [b, c];
    assert Join([b, c], ',') == b + "," + c;
    assert Join(fields, ',') == a + "," + (b + "," + c);
    assert a + "," + (b + "," + c) == a + "," + b + "," + c;
    SplitJoin(fields, ',');
    JoinFree(fields, ',', '\n');
  }

  lemma MultinomialHeaderFree()
    ensures Free(MultinomialHeader, '\n')
  {
    var h := MultinomialHeader;
    forall i | 0 <= i < |h| ensures h[i] != '\n' {
      assert h[i] in "Categoria,FrecunObsvdEp_";
    }
  }

  /** The multinomial file: its header, then one `cat,observed,expected` line
      per category, index-aligned. */
  lemma MultinomialExport(d: SimulationData, cats: seq<string>, obs: seq<string>, esp: seq<string>)
    requires d.categorias == Some(cats) && d.frecuenciasObservadas == Some(obs) && d.frecuenciasEsperadas == Some(esp)
    requires |cats| >= 1
    requires AllFree(cats, '\n') && AllFree(cats, ',') && AllFree(obs, '\n') && AllFree(obs, ',')
    requires AllFree(esp, '\n') && AllFree(esp, ',')
    ensures var r := ExportCsv(Some(d), "multinomial");
      && r.Download?
      && var lines := Split(r.content, '\n');
      && |lines| == |cats| + 1 && lines[0] == MultinomialHeader
      && forall i :: 0 <= i < |cats| ==> Split(lines[i + 1], ',') == [cats[i], Cell(obs, i), Cell(esp, i)]
  {
    var rows := MultinomialRows(cats, obs, esp);
    MultinomialBranch(d, cats, obs, esp);
    MultinomialRowsRead(cats, obs, esp);
    MultinomialHeaderFree();
    ColumnLines(MultinomialHeader, rows);
  }

  lemma MultinomialBranch(d: SimulationData, cats: seq<string>, obs: seq<string>, esp: seq<string>)
    requires d.categorias == Some(cats) && d.frecuenciasObservadas == Some(obs) && d.frecuenciasEsperadas == Some(esp)
    ensures ExportCsv(Some(d), "multinomial")
         == Download("multinomial" + "_simulacion.csv", Column(MultinomialHeader, MultinomialRows(cats, obs, esp)))
  {
    KindNames();
  }

  /** Every `cat,observed,expected` line is one line and splits back into its
      three fields. */
  lemma MultinomialRowsRead(cats: seq<string>, obs: seq<string>, esp: seq<string>)
    requires AllFree(cats, '\n') && AllFree(cats, ',') && AllFree(obs, '\n') && AllFree(obs, ',')
    requires AllFree(esp, '\n') && AllFree(esp, ',')
    ensures AllFree(MultinomialRows(cats, obs, esp), '\n')
    ensures forall i :: 0 <= i < |cats| ==>
              Split(MultinomialRows(cats, obs, esp)[i], ',') == [cats[i], Cell(obs, i), Cell(esp, i)]
  {
    var rows := MultinomialRows(cats, obs, esp);
    forall i | 0 <= i < |cats|
      ensures Free(rows[i], '\n') && Split(rows[i], ',') == [cats[i], Cell(obs, i), Cell(esp, i)]
    {
      TripleRow(cats[i], Cell(obs, i), Cell(esp, i));
    }
  }
}
