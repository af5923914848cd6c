/**
  backend/components/charts/radar_chart.py: before drawing, every city of the
  payload is given a vector with one value per metric (the payload's own
  `valores` dict is changed in place), then one indicator per metric and one
  series per city are built. The drawing itself and the scale of each axis
  (a floating-point maximum) are not part of this model.
*/
module RadarChart {
  import opened Wrappers
  import opened PyText
  import opened PyDict
  import Dicionarios

  /** `[0] * n` */
  function Zeros(n: nat): (r: seq<real>)
    ensures |r| == n && forall i :: 0 <= i < n ==> r[i] == 0.0
  {
    seq(n, _ => 0.0)
  }

  /** One step of the padding loop: a city whose vector is missing or has the
      wrong length gets `n` zeros; any other entry is kept. */
  function PadOne(valores: Dict<string, seq<real>>, cidade: string, n: nat): Dict<string, seq<real>> {
    if !HasKey(valores, cidade) || |Get(valores, cidade).value| != n then Assign(valores, cidade, Zeros(n))
    else valores
  }

  /** The padding loop over `cidades`, in order. */
  function Padded(cidades: seq<string>, n: nat, valores: Dict<string, seq<real>>): Dict<string, seq<real>>
    decreases |cidades|
  {
    if cidades == [] then valores
    else PadOne(Padded(cidades[..|cidades| - 1], n, valores), cidades[|cidades| - 1], n)
  }

  /** After padding, every city has a vector of length `n`. */
  lemma {:induction false} PaddedCovers(cidades: seq<string>, n: nat, valores: Dict<string, seq<real>>)
    ensures forall c :: c in cidades ==>
              HasKey(Padded(cidades, n, valores), c) && |Get(Padded(cidades, n, valores), c).value| == n
    decreases |cidades|
  {
    if cidades != [] {
      var init := cidades[..|cidades| - 1];
      var last := cidades[|cidades| - 1];
      PaddedCovers(init, n, valores);
      var before := Padded(init, n, valores);
      forall c | c in cidades
        ensures HasKey(Padded(cidades, n, valores), c) && |Get(Padded(cidades, n, valores), c).value| == n
      {
        if c != last {
          assert c in init;
        }
      }
    }
  }

  /** Keys that are not cities keep their entries. */
  lemma {:induction false} PaddedKeepsOthers(cidades: seq<string>, n: nat, valores: Dict<string, seq<real>>, k: string)
    requires k !in cidades
    ensures Get(Padded(cidades, n, valores), k) == Get(valores, k)
    decreases |cidades|
  {
    if cidades != [] {
      PaddedKeepsOthers(cidades[..|cidades| - 1], n, valores, k);
    }
  }

  /** A vector that already had the right length is left as it was. */
  lemma {:induction false} PaddedKeepsGood(cidades: seq<string>, n: nat, valores: Dict<string, seq<real>>, k: string)
    requires HasKey(valores, k) && |Get(valores, k).value| == n
    ensures Get(Padded(cidades, n, valores), k) == Get(valores, k)
    decreases |cidades|
  {
    if cidades != [] {
      PaddedKeepsGood(cidades[..|cidades| - 1], n, valores, k);
    }
  }

  /** A city whose vector was missing or of the wrong length ends with zeros. */
  lemma {:induction false} PaddedZeroesBad(cidades: seq<string>, n: nat, valores: Dict<string, seq<real>>, k: string)
    requires k in cidades
    requires !(HasKey(valores, k) && |Get(valores, k).value| == n)
    ensures Get(Padded(cidades, n, valores), k) == Some(Zeros(n))
    decreases |cidades|
  {
    var init := cidades[..|cidades| - 1];
    var last := cidades[|cidades| - 1];
    if k in init {
      PaddedZeroesBad(init, n, valores, k);
    } else {
      assert k == last;
      PaddedKeepsOthers(init, n, valores, k);
    }
  }

  /** Padding keeps the keys distinct. */
  lemma {:induction false} PaddedUnique(cidades: seq<string>, n: nat, valores: Dict<string, seq<real>>)
    requires UniqueKeys(valores)
    ensures UniqueKeys(Padded(cidades, n, valores))
    decreases |cidades|
  {
    if cidades != [] {
      PaddedUnique(cidades[..|cidades| - 1], n, valores);
    }
  }

  /** The axis name of a metric: its label, or the column with underscores
      turned into spaces and title-cased. */
  function RotuloRadar(metrica: string): string {
    if metrica in Dicionarios.MetricasValidas then Dicionarios.MetricasValidas[metrica]
    else Title(ReplaceAll(metrica, "_", " "))
  }

  /** A column without a label is shown with spaces for underscores, each
      word starting with a capital and the rest of it in small letters; the
      words are the runs of cased letters, so digits also break them. */
  lemma RotuloRadarUnlabelled(metrica: string)
    requires metrica !in Dicionarios.MetricasValidas
    ensures |RotuloRadar(metrica)| == |metrica|
    ensures forall i :: 0 <= i < |metrica| && metrica[i] == '_' ==> RotuloRadar(metrica)[i] == ' '
    ensures forall i :: 0 <= i < |metrica| && metrica[i] != '_' && !IsCased(metrica[i]) ==>
              RotuloRadar(metrica)[i] == metrica[i]
    ensures forall i :: 0 <= i < |metrica| && IsCased(metrica[i]) && StartsWord(metrica, i) && HasLatinCapital(metrica[i]) ==>
              IsUpperLatin(RotuloRadar(metrica)[i]) && LowerChar(RotuloRadar(metrica)[i]) == LowerChar(metrica[i])
    ensures forall i :: 0 <= i < |metrica| && IsCased(metrica[i]) && !StartsWord(metrica, i) ==>
              !IsUpperLatin(RotuloRadar(metrica)[i]) && LowerChar(RotuloRadar(metrica)[i]) == LowerChar(metrica[i])
  {
    ReplaceAllChar(metrica, '_', ' ');
    assert "_" == ['_'] && " " == [' '];
    var espacada := ReplaceAll(metrica, "_", " ");
    TitleMeaning(espacada);
    forall i | 0 <= i < |metrica|
      ensures StartsWord(espacada, i) == StartsWord(metrica, i)
      ensures IsCased(espacada[i]) == IsCased(metrica[i])
    {
    }
  }

  datatype Cor = CorPrimaria | CorSecundaria

  /** One entry of `series_data`: the city's vector, its name and colour. */
  datatype Serie = Serie(valor: seq<real>, nome: string, cor: Cor)

  /** `colors[i % len(colors)]` with two colours. */
  function CorDe(i: nat): Cor {
    if i % 2 == 0 then CorPrimaria else CorSecundaria
  }

  /** The payload the renderer receives; `valores` is the dict it changes in
      place. */
  class DadosRadar {
    var cidades: seq<string>
    var metricas: seq<string>
    var valores: Dict<string, seq<real>>

    constructor(cidades: seq<string>, metricas: seq<string>, valores: Dict<string, seq<real>>)
      ensures this.cidades == cidades && this.metricas == metricas && this.valores == valores
    {
      this.cidades := cidades;
      this.metricas := metricas;
      this.valores := valores;
    }

    /** The padding loop of `render_radar_chart`. */
    method GarantirTamanhos()
      modifies this
      ensures cidades == old(cidades) && metricas == old(metricas)
      ensures valores == Padded(cidades, |metricas|, old(valores))
    {
      var n := |metricas|;
      for i := 0 to |cidades|
        invariant cidades == old(cidades) && metricas == old(metricas)
        invariant valores == Padded(cidades[..i], n, old(valores))
      {
        var cidade := cidades[i];
        if !HasKey(valores, cidade) || |Get(valores, cidade).value| != n {
          valores := Assign(valores, cidade, Zeros(n));
        }
        assert cidades[..i + 1][..i] == cidades[..i];
      }
      assert cidades[..|cidades|] == cidades;
    }

    /** The indicator loop: one axis name per metric, in order. */
    method Indicadores() returns (nomes: seq<string>)
      ensures |nomes| == |metricas|
      ensures forall i :: 0 <= i < |metricas| ==> nomes[i] == RotuloRadar(metricas[i])
    {
      nomes := [];
      for i := 0 to |metricas|
        invariant |nomes| == i
        invariant forall j :: 0 <= j < i ==> nomes[j] == RotuloRadar(metricas[j])
      {
        nomes := nomes + [RotuloRadar(metricas[i])];
      }
    }

    /** The series loop: one series per city, in order, with its vector and
      alternating colours. `valores[cidade]` raises for a city with no
      vector, which padding rules out. */
    method Series() returns (series: seq<Serie>)
      requires forall c :: c in cidades ==> HasKey(valores, c)
      ensures |series| == |cidades|
      ensures forall i :: 0 <= i < |cidades| ==>
                series[i] == Serie(Get(valores, cidades[i]).value, cidades[i], CorDe(i))
    {
      series := [];
      for i := 0 to |cidades|
        invariant |series| == i
        invariant forall j :: 0 <= j < i ==>
                    series[j] == Serie(Get(valores, cidades[j]).value, cidades[j], CorDe(j))
      {
        series := series + [Serie(Get(valores, cidades[i]).value, cidades[i], CorDe(i))];
      }
    }

    /** `render_radar_chart(data)` up to the drawing: the axis names and the
      series, or None where `max` of an empty sequence raises (metrics but no
      cities). */
    method RenderRadar() returns (r: Option<(seq<string>, seq<Serie>)>)
      modifies this
      ensures cidades == old(cidades) && metricas == old(metricas)
      ensures valores == Padded(cidades, |metricas|, old(valores))
      ensures r.None? <==> cidades == [] && metricas != []
      ensures r.Some? ==> |r.value.0| == |metricas| && |r.value.1| == |cidades|
      ensures r.Some? ==> forall i :: 0 <= i < |metricas| ==> r.value.0[i] == RotuloRadar(metricas[i])
      ensures r.Some? ==> forall i :: 0 <= i < |cidades| ==>
                r.value.1[i].nome == cidades[i] && |r.value.1[i].valor| == |metricas|
                && r.value.1[i].cor == CorDe(i)
      ensures r.Some? ==> forall i :: 0 <= i < |cidades| ==>
                r.value.1[i].valor ==
                  if HasKey(old(valores), cidades[i]) && |Get(old(valores), cidades[i]).value| == |metricas|
                  then Get(old(valores), cidades[i]).value
                  else Zeros(|metricas|)
    {
      GarantirTamanhos();
      PaddedCovers(cidades, |metricas|, old(valores));
      forall i | 0 <= i < |cidades|
        ensures Get(valores, cidades[i]).value ==
                  if HasKey(old(valores), cidades[i]) && |Get(old(valores), cidades[i]).value| == |metricas|
                  then Get(old(valores), cidades[i]).value
                  else Zeros(|metricas|)
      {
        if HasKey(old(valores), cidades[i]) && |Get(old(valores), cidades[i]).value| == |metricas| {
          PaddedKeepsGood(cidades, |metricas|, old(valores), cidades[i]);
        } else {
          PaddedZeroesBad(cidades, |metricas|, old(valores), cidades[i]);
        }
      }
      if cidades == [] && metricas != [] {
        return None;
      }
      var nomes := Indicadores();
      var series := Series();
      return Some((nomes, series));
    }
  }
}
