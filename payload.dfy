/** The parts of a simulation response body (parsed JSON) that the front-end's
    state and exporter look at. Every field may be absent; numbers are carried
    as the text a template literal prints for them. */
module Payloads {
  import opened Wrappers

  /** The Gibbs sampler's nested `samples: {x: [...], y: [...]}`. */
  datatype Samples = Samples(x: Option<seq<string>>, y: Option<seq<string>>)

  datatype SimulationData = SimulationData(
    resultadosIndividuales: Option<seq<string>>,
    valores: Option<seq<string>>,
    samples: Option<Samples>,
    valoresX: Option<seq<string>>,
    valoresY: Option<seq<string>>,
    categorias: Option<seq<string>>,
    frecuenciasObservadas: Option<seq<string>>,
    frecuenciasEsperadas: Option<seq<string>>,
    error: Option<string>,
    success: bool)

  /** A body with none of the fields set. */
  function EmptyData(): SimulationData
  {
    SimulationData(None, None, None, None, None, None, None, None, None, false)
  }
}
