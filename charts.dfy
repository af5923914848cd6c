/**
  backend/components/charts/charts_builder.py: the chart type a dashboard
  payload asks for, decided by how many metrics and how many cities it
  carries, and the one renderer called for it. The renderers themselves
  draw with the charting library and are not part of this model.
*/
module Charts {
  import opened Wrappers
  import opened PyDict
  import opened PyValue

  datatype TipoGrafico = Bar | Radar | Scatter | Gauge | Other

  /** The name `infer_chart_type` returns. */
  function NomeTipo(t: TipoGrafico): string {
    match t
    case Bar => "bar"
    case Radar => "radar"
    case Scatter => "scatter"
    case Gauge => "gauge"
    case Other => "other"
  }

  /** The decision table of `infer_chart_type`, on the two counts. */
  function TipoPorContagem(nMet: nat, nCid: nat): TipoGrafico {
    if nMet == 1 && nCid > 1 then Bar
    else if nMet > 1 && nCid > 1 then Radar
    else if nMet == 2 then Scatter
    else if nMet == 1 && nCid == 1 then Gauge
    else Other
  }

  /** Each chart type, characterised by the counts alone. The first tests shadow
      the later ones: two metrics with two cities is a radar, not a scatter,
      and the scatter needs at most one city. */
  lemma TipoPorContagemIff(nMet: nat, nCid: nat)
    ensures TipoPorContagem(nMet, nCid) == Bar <==> nMet == 1 && nCid >= 2
    ensures TipoPorContagem(nMet, nCid) == Radar <==> nMet >= 2 && nCid >= 2
    ensures TipoPorContagem(nMet, nCid) == Scatter <==> nMet == 2 && nCid <= 1
    ensures TipoPorContagem(nMet, nCid) == Gauge <==> nMet == 1 && nCid == 1
    ensures TipoPorContagem(nMet, nCid) == Other <==>
              nMet == 0 || (nMet == 1 && nCid == 0) || (nMet >= 3 && nCid <= 1)
  {
  }

  /** `len(v)`: defined on strings, lists and dicts; anything else raises. */
  function Tamanho(v: Value): Option<nat> {
    match v
    case VStr(s) => Some(|s|)
    case VList(xs) => Some(|xs|)
    case VDict(d) => Some(|d|)
    case _ => None
  }

  /** `infer_chart_type(data)`; None where `len` raises. A missing key counts
      as an empty list. */
  function InferChartType(data: Dict<string, Value>): (r: Option<TipoGrafico>)
    ensures r.Some? <==> Tamanho(GetOr(data, "metricas", VList([]))).Some?
                         && Tamanho(GetOr(data, "cidades", VList([]))).Some?
    ensures r.Some? ==> r.value == TipoPorContagem(Tamanho(GetOr(data, "metricas", VList([]))).value,
                                                   Tamanho(GetOr(data, "cidades", VList([]))).value)
  {
    var nMet := Tamanho(GetOr(data, "metricas", VList([])));
    var nCid := Tamanho(GetOr(data, "cidades", VList([])));
    if nMet.None? || nCid.None? then None
    else Some(TipoPorContagem(nMet.value, nCid.value))
  }

  /** A payload without metrics is drawn as "other", whatever its cities. */
  lemma NoMetricsIsOther(data: Dict<string, Value>)
    requires !HasKey(data, "metricas")
    requires Tamanho(GetOr(data, "cidades", VList([]))).Some?
    ensures InferChartType(data) == Some(Other)
  {
    assert GetOr(data, "metricas", VList([])) == VList([]);
  }

  /** The renderers `render_chart` can call. */
  datatype Renderizador = RenderBarChart | RenderRadarChart | RenderScatterChart
                        | RenderGaugeChart | RenderOtherChart

  /** `render_chart(data)`: the one renderer called; None where inferring the
      type raises. */
  function RenderChart(data: Dict<string, Value>): (r: Option<Renderizador>)
    ensures r.Some? <==> InferChartType(data).Some?
    ensures r == Some(RenderBarChart) <==> InferChartType(data) == Some(Bar)
    ensures r == Some(RenderRadarChart) <==> InferChartType(data) == Some(Radar)
    ensures r == Some(RenderScatterChart) <==> InferChartType(data) == Some(Scatter)
    ensures r == Some(RenderGaugeChart) <==> InferChartType(data) == Some(Gauge)
    ensures r == Some(RenderOtherChart) <==> InferChartType(data) == Some(Other)
  {
    var t := InferChartType(data);
    if t.None? then None
    else if NomeTipo(t.value) == "bar" then Some(RenderBarChart)
    else if NomeTipo(t.value) == "radar" then Some(RenderRadarChart)
    else if NomeTipo(t.value) == "scatter" then Some(RenderScatterChart)
    else if NomeTipo(t.value) == "gauge" then Some(RenderGaugeChart)
    else Some(RenderOtherChart)
  }
}
