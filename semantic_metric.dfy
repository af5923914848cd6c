/**
  backend/core/router/semantic_metric.py: which database column a
  comparative question is about. A keyword table is tried first, in insertion
  order, as plain substrings of the lowercased question; only when no keyword
  occurs is the language model asked, its answer cleaned of code fences, read
  as JSON or, failing that, searched with a regular expression, and the column
  accepted only when it is a known metric. The two fixed fallbacks tell an
  unusable column ("Comparação geral entre cidades") from a failure
  ("Comparação geral entre cidades (default)").

  The module keeps its own METRICAS_VALIDAS (38 columns) and HEURISTICAS
  (15 keywords), which differ from the tables of backend/config/dicionarios.py.
  The language model and `json.loads` are parameters.
*/
module SemanticMetric {
  import opened Wrappers
  import opened PyText
  import opened PyDict
  import opened PyValue
  import SemanticRouter

  // ---------------------------------------------------------------------
  // METRICAS_VALIDAS (local to this module)
  // ---------------------------------------------------------------------

  /** Column -> label. Only looked up here (membership and `.get`), so a map;
      its keys are all distinct, written in three consecutive parts. */
  const Metricas: map<string, string> := MetricasPart0 + MetricasPart1 + MetricasPart2

  const MetricasPart0: map<string, string> := map[
    "populacao" := "População Total",
    "pib_per_capita" := "PIB per Capita",
    "matriculas_infantil" := "Matrículas - Educação Infantil",
    "matriculas_fundamental" := "Matrículas - Ensino Fundamental",
    "matriculas_medio" := "Matrículas - Ensino Médio",
    "matriculas_eja" := "Matrículas - EJA",
    "matriculas_especial" := "Matrículas - Educação Especial",
    "matriculas_tecnico" := "Matrículas - Curso Técnico",
    "turmas_infantil" := "Turmas - Educação Infantil",
    "turmas_fundamental" := "Turmas - Ensino Fundamental",
    "turmas_medio" := "Turmas - Ensino Médio",
    "turmas_eja" := "Turmas - EJA",
    "turmas_especial" := "Turmas - Educação Especial"
  ]

  const MetricasPart1: map<string, string> := map[
    "turmas_tecnico" := "Turmas - Curso Técnico",
    "docentes_infantil" := "Docentes - Educação Infantil",
    "docentes_fundamental" := "Docentes - Ensino Fundamental",
    "docentes_medio" := "Docentes - Ensino Médio",
    "docentes_eja" := "Docentes - EJA",
    "docentes_especial" := "Docentes - Educação Especial",
    "docentes_tecnico" := "Docentes - Curso Técnico",
    "escolas_infantil" := "Escolas - Educação Infantil",
    "escolas_fundamental" := "Escolas - Ensino Fundamental",
    "escolas_medio" := "Escolas - Ensino Médio",
    "escolas_eja" := "Escolas - EJA",
    "escolas_especial" := "Escolas - Educação Especial",
    "escolas_tecnico" := "Escolas - Curso Técnico"
  ]

  const MetricasPart2: map<string, string> := map[
    "infra_basica_biblioteca" := "Infraestrutura - Bibliotecas (Educação Básica)",
    "infra_basica_lab_ciencias" := "Infraestrutura - Lab. Ciências (Educação Básica)",
    "infra_basica_lab_informatica" := "Infraestrutura - Lab. Informática (Educação Básica)",
    "infra_basica_cozinha" := "Infraestrutura - Cozinhas (Educação Básica)",
    "infra_basica_refeitorio" := "Infraestrutura - Refeitórios (Educação Básica)",
    "infra_basica_quadra_esportes" := "Infraestrutura - Quadras (Educação Básica)",
    "infra_basica_internet" := "Infraestrutura - Internet (Educação Básica)",
    "infra_basica_acessibilidade_rampas" := "Infraestrutura - Acessibilidade (Educação Básica)",
    "prof_basica_professores_pedagogia" := "Professores com Formação Pedagógica",
    "prof_basica_coordenadores" := "Coordenadores Pedagógicos",
    "prof_basica_monitores" := "Monitores Educacionais",
    "cursos_tecnicos_ofertados" := "Cursos Técnicos Ofertados"
  ]

  /** Every label is a non-empty text. */
  lemma MetricasLabelsNonEmpty()
    ensures forall c :: c in Metricas ==> Metricas[c] != ""
  {
    MetricasPart0NonEmpty();
    MetricasPart1NonEmpty();
    MetricasPart2NonEmpty();
  }

  lemma MetricasPart0NonEmpty()
    ensures forall c :: c in MetricasPart0 ==> |MetricasPart0[c]| > 0
  {
  }

  lemma MetricasPart1NonEmpty()
    ensures forall c :: c in MetricasPart1 ==> |MetricasPart1[c]| > 0
  {
  }

  lemma MetricasPart2NonEmpty()
    ensures forall c :: c in MetricasPart2 ==> |MetricasPart2[c]| > 0
  {
  }

  /** `METRICAS_VALIDAS.get(coluna, coluna)` */
  function RotuloOu(coluna: string): string {
    if coluna in Metricas then Metricas[coluna] else coluna
  }

  // ---------------------------------------------------------------------
  // HEURISTICAS and aplicar_heuristica
  // ---------------------------------------------------------------------

  /** Keyword -> column, in insertion order; the keywords are all distinct. */
  const Heuristicas: Dict<string, string> := HeuristicasPart0 + HeuristicasPart1

  const HeuristicasPart0: seq<(string, string)> := [
    ("população", "populacao"),
    ("habitantes", "populacao"),
    ("pib", "pib_per_capita"),
    ("renda", "pib_per_capita"),
    ("matrículas", "matriculas_fundamental"),
    ("ensino médio", "matriculas_medio"),
    ("educação infantil", "matriculas_infantil"),
    ("escolas", "escolas_fundamental")
  ]

  const HeuristicasPart1: seq<(string, string)> := [
    ("biblioteca", "infra_basica_biblioteca"),
    ("quadra", "infra_basica_quadra_esportes"),
    ("cozinha", "infra_basica_cozinha"),
    ("internet", "infra_basica_internet"),
    ("laboratório", "infra_basica_lab_informatica"),
    ("curso técnico", "cursos_tecnicos_ofertados"),
    ("técnico", "cursos_tecnicos_ofertados")
  ]

  /** Every keyword's column is a known metric, so the heuristic always
      reports the human-readable label. */
  lemma HeuristicasLabelled()
    ensures |Heuristicas| == 15
    ensures forall i :: 0 <= i < |Heuristicas| ==> Heuristicas[i].1 in Metricas && Heuristicas[i].1 != ""
  {
    HeuristicasPart0Labelled();
    HeuristicasPart1Labelled();
    forall i | 0 <= i < |Heuristicas| ensures Heuristicas[i].1 in Metricas && Heuristicas[i].1 != "" {
      if i < |HeuristicasPart0| {
        assert Heuristicas[i] == HeuristicasPart0[i];
      } else {
        assert Heuristicas[i] == HeuristicasPart1[i - |HeuristicasPart0|];
      }
    }
  }

  lemma HeuristicasPart0Labelled()
    ensures |HeuristicasPart0| == 8
    ensures forall i :: 0 <= i < |HeuristicasPart0| ==>
              HeuristicasPart0[i].1 in MetricasPart0 + MetricasPart1 && HeuristicasPart0[i].1 != ""
  {
    forall i | 0 <= i < |HeuristicasPart0|
      ensures HeuristicasPart0[i].1 in MetricasPart0 + MetricasPart1 && HeuristicasPart0[i].1 != ""
    {
      assert i in {0, 1, 2, 3, 4, 5, 6, 7};
    }
  }

  lemma HeuristicasPart1Labelled()
    ensures |HeuristicasPart1| == 7
    ensures forall i :: 0 <= i < |HeuristicasPart1| ==>
              HeuristicasPart1[i].1 in MetricasPart1 + MetricasPart2 && HeuristicasPart1[i].1 != ""
  {
    forall i | 0 <= i < |HeuristicasPart1|
      ensures HeuristicasPart1[i].1 in MetricasPart1 + MetricasPart2 && HeuristicasPart1[i].1 != ""
    {
      assert i in {0, 1, 2, 3, 4, 5, 6};
    }
  }

  /** The loop of `aplicar_heuristica` over a keyword table `h`, from keyword
      `i` on, on the lowercased question; `rotulos` gives the labels. */
  function HeuristicaDesde(h: Dict<string, string>, rotulos: map<string, string>,
                           perguntaLower: string, i: nat): Option<(string, string)>
    decreases |h| - i
  {
    if i >= |h| then None
    else if Contains(perguntaLower, h[i].0) then
      var coluna := h[i].1;
      Some((coluna, if coluna in rotulos then rotulos[coluna] else coluna))
    else HeuristicaDesde(h, rotulos, perguntaLower, i + 1)
  }

  /** `aplicar_heuristica(pergunta)` */
  function AplicarHeuristica(pergunta: string): Option<(string, string)> {
    HeuristicaDesde(Heuristicas, Metricas, Lower(pergunta), 0)
  }

  /** No keyword from `i` on occurs exactly when the scan finds nothing. */
  lemma {:induction false} HeuristicaDesdeNone(h: Dict<string, string>, rotulos: map<string, string>,
                                               pl: string, i: nat)
    requires i <= |h|
    ensures HeuristicaDesde(h, rotulos, pl, i).None? <==>
              forall j :: i <= j < |h| ==> !Contains(pl, h[j].0)
    decreases |h| - i
  {
    if i < |h| && !Contains(pl, h[i].0) {
      HeuristicaDesdeNone(h, rotulos, pl, i + 1);
    }
  }

  /** What the scan finds is the first keyword from `i` on that occurs, with
      its column's label (or the column itself when it has none). */
  lemma {:induction false} HeuristicaDesdeIsFirst(h: Dict<string, string>, rotulos: map<string, string>,
                                                  pl: string, i: nat)
    requires i <= |h|
    requires HeuristicaDesde(h, rotulos, pl, i).Some?
    ensures exists j :: i <= j < |h| && Contains(pl, h[j].0)
              && (forall j' :: i <= j' < j ==> !Contains(pl, h[j'].0))
              && HeuristicaDesde(h, rotulos, pl, i).value.0 == h[j].1
    ensures HeuristicaDesde(h, rotulos, pl, i).value.1 ==
              var c := HeuristicaDesde(h, rotulos, pl, i).value.0;
              if c in rotulos then rotulos[c] else c
    decreases |h| - i
  {
    if !Contains(pl, h[i].0) {
      HeuristicaDesdeIsFirst(h, rotulos, pl, i + 1);
    }
  }

  /** A keyword that occurs, with none before it occurring, decides. */
  lemma {:induction false} HeuristicaDesdeAt(h: Dict<string, string>, rotulos: map<string, string>,
                                             pl: string, i: nat, j: nat)
    requires i <= j < |h| && Contains(pl, h[j].0)
    requires forall j' :: i <= j' < j ==> !Contains(pl, h[j'].0)
    ensures HeuristicaDesde(h, rotulos, pl, i) == HeuristicaDesde(h, rotulos, pl, j)
    decreases j - i
  {
    if i < j {
      HeuristicaDesdeAt(h, rotulos, pl, i + 1, j);
    }
  }

  /** `aplicar_heuristica` answers with the column of the first keyword, in
      insertion order, that is a substring of the lowercased question, paired
      with that column's label; None exactly when no keyword occurs. */
  lemma AplicarHeuristicaIsFirst(pergunta: string)
    ensures AplicarHeuristica(pergunta).None? <==>
              forall j :: 0 <= j < |Heuristicas| ==> !Contains(Lower(pergunta), Heuristicas[j].0)
    ensures AplicarHeuristica(pergunta).Some? ==>
              exists j :: 0 <= j < |Heuristicas| && Contains(Lower(pergunta), Heuristicas[j].0)
                && (forall j' :: 0 <= j' < j ==> !Contains(Lower(pergunta), Heuristicas[j'].0))
                && AplicarHeuristica(pergunta).value.0 == Heuristicas[j].1
  {
    HeuristicaDesdeNone(Heuristicas, Metricas, Lower(pergunta), 0);
    if AplicarHeuristica(pergunta).Some? {
      HeuristicaDesdeIsFirst(Heuristicas, Metricas, Lower(pergunta), 0);
    }
  }

  /** A heuristic hit is a known column with its own, non-empty label. */
  lemma AplicarHeuristicaLabelled(pergunta: string)
    ensures AplicarHeuristica(pergunta).Some? ==>
              AplicarHeuristica(pergunta).value.0 != ""
              && AplicarHeuristica(pergunta).value.0 in Metricas
              && AplicarHeuristica(pergunta).value.1 == Metricas[AplicarHeuristica(pergunta).value.0]
              && AplicarHeuristica(pergunta).value.1 != ""
  {
    if AplicarHeuristica(pergunta).Some? {
      HeuristicaDesdeIsFirst(Heuristicas, Metricas, Lower(pergunta), 0);
    }
    HeuristicasLabelled();
    MetricasLabelsNonEmpty();
  }

  lemma HeuristicasAt4()
    ensures |Heuristicas| == 15 && Heuristicas[4] == ("matrículas", "matriculas_fundamental")
  {
    assert Heuristicas[4] == HeuristicasPart0[4];
  }

  /** "matrículas" is listed before "ensino médio", so a question with both
      (and none of the four keywords before them) is about
      `matriculas_fundamental`. */
  lemma MatriculasBeforeEnsinoMedio(pergunta: string)
    requires Contains(Lower(pergunta), "matrículas") && Contains(Lower(pergunta), "ensino médio")
    requires forall j :: 0 <= j < 4 ==> !Contains(Lower(pergunta), Heuristicas[j].0)
    ensures AplicarHeuristica(pergunta).Some?
    ensures AplicarHeuristica(pergunta).value.0 == "matriculas_fundamental"
  {
    HeuristicasAt4();
    HeuristicaDesdeAt(Heuristicas, Metricas, Lower(pergunta), 0, 4);
  }

  // ---------------------------------------------------------------------
  // The regular expression fallback
  //   "coluna"\s*:\s*"(?P<coluna>[\w_]+)".*?"label"\s*:\s*"(?P<label>[^"]+)"
  // with DOTALL. Every part but `.*?` is a greedy run followed by a fixed
  // character the run cannot contain, so it matches in one way only; `.*?`
  // takes the first "label" part that matches after the column.
  // ---------------------------------------------------------------------

  /** Where a greedy `[^"]*` starting at `p` stops. */
  function SkipNonQuote(s: string, p: nat): (r: nat)
    requires p <= |s|
    ensures p <= r <= |s|
    ensures forall k :: p <= k < r ==> s[k] != '"'
    ensures r == |s| || s[r] == '"'
    decreases |s| - p
  {
    if p < |s| && s[p] != '"' then SkipNonQuote(s, p + 1) else p
  }

  /** `"coluna"\s*:\s*"([\w_]+)"` at `i`: the column and the position after
      its closing quote. */
  function ColunaAt(s: string, i: nat): (r: Option<(string, nat)>)
    ensures r.Some? ==> OccursAt(s, "\"coluna\"", i) && i + 8 < r.value.1 <= |s|
    ensures r.Some? ==> r.value.0 != [] && forall c :: c in r.value.0 ==> IsWordChar(c)
  {
    if !OccursAt(s, "\"coluna\"", i) then None
    else
      var k := SkipSpaces(s, i + 8);
      if !(k < |s| && s[k] == ':') then None
      else
        var k' := SkipSpaces(s, k + 1);
        if !(k' < |s| && s[k'] == '"') then None
        else
          var e := SkipWord(s, k' + 1);
          if e == k' + 1 || e == |s| || s[e] != '"' then None
          else Some((s[k' + 1..e], e + 1))
  }

  /** `"label"\s*:\s*"([^"]+)"` at `q`: the label. */
  function LabelAt(s: string, q: nat): (r: Option<string>)
    ensures r.Some? ==> OccursAt(s, "\"label\"", q)
    ensures r.Some? ==> r.value != [] && '"' !in r.value
  {
    if !OccursAt(s, "\"label\"", q) then None
    else
      var k := SkipSpaces(s, q + 7);
      if !(k < |s| && s[k] == ':') then None
      else
        var k' := SkipSpaces(s, k + 1);
        if !(k' < |s| && s[k'] == '"') then None
        else
          var e := SkipNonQuote(s, k' + 1);
          if e == k' + 1 || e == |s| then None
          else Some(s[k' + 1..e])
  }

  /** The lazy `.*?` then the label part: the first position from `q` on where
      the label part matches. */
  function LabelDesde(s: string, q: nat): Option<string> {
    Leftmost((q' => LabelAt(s, q')), q, |s|)
  }

  /** The whole pattern at `i`. */
  function MetricaAt(s: string, i: nat): Option<(string, string)> {
    match ColunaAt(s, i)
    case None => None
    case Some((coluna, e)) =>
      match LabelDesde(s, e)
      case None => None
      case Some(rotulo) => Some((coluna, rotulo))
  }

  /** A match at `i` is a non-empty run of word characters and a non-empty
      label without quotes, with the "coluna" key at `i` and a "label" key
      after it. */
  lemma MetricaAtShape(s: string, i: nat)
    requires MetricaAt(s, i).Some?
    ensures MetricaAt(s, i).value.0 != [] && forall c :: c in MetricaAt(s, i).value.0 ==> IsWordChar(c)
    ensures MetricaAt(s, i).value.1 != [] && '"' !in MetricaAt(s, i).value.1
    ensures OccursAt(s, "\"coluna\"", i)
    ensures exists q :: i + 8 < q <= |s| && OccursAt(s, "\"label\"", q)
  {
    var e := ColunaAt(s, i).value.1;
    LeftmostIsFirst((q' => LabelAt(s, q')), e, |s|);
    var q :| e <= q <= |s| && LabelAt(s, q) == LabelDesde(s, e);
  }

  /** `re.search` */
  function MetricaPorRegex(s: string): Option<(string, string)> {
    Leftmost((j => MetricaAt(s, j)), 0, |s|)
  }

  /** What the regular expression yields: a column of word characters found
      after a "coluna" key and a label found after a later "label" key. */
  lemma MetricaPorRegexShape(s: string)
    ensures MetricaPorRegex(s).Some? ==>
              var (coluna, rotulo) := MetricaPorRegex(s).value;
              coluna != [] && (forall c :: c in coluna ==> IsWordChar(c))
              && rotulo != [] && '"' !in rotulo
              && exists i, q :: 0 <= i && i + 8 < q <= |s|
                                && OccursAt(s, "\"coluna\"", i) && OccursAt(s, "\"label\"", q)
  {
    if MetricaPorRegex(s).Some? {
      LeftmostIsFirst((j => MetricaAt(s, j)), 0, |s|);
      var j :| 0 <= j <= |s| && MetricaAt(s, j) == MetricaPorRegex(s);
      MetricaAtShape(s, j);
      var q :| j + 8 < q <= |s| && OccursAt(s, "\"label\"", q);
    }
  }

  /** A "label" key only before the "coluna" key is never found: without a
      "label" key after some "coluna" key there is no match. */
  lemma LabelBeforeColunaMisses(s: string)
    requires forall i, q :: 0 <= i && i + 8 < q <= |s| && OccursAt(s, "\"coluna\"", i)
                            ==> !OccursAt(s, "\"label\"", q)
    ensures MetricaPorRegex(s).None?
  {
    MetricaPorRegexShape(s);
  }

  // ---------------------------------------------------------------------
  // classificar_metrica
  // ---------------------------------------------------------------------

  const GeralLabel: string := "Comparação geral entre cidades"
  const GeralDefaultLabel: string := "Comparação geral entre cidades (default)"

  /** The answer when the column is empty or unknown. */
  const Geral: (string, string) := ("", GeralLabel)

  /** The answer when anything raises. */
  const GeralDefault: (string, string) := ("", GeralDefaultLabel)

  /** `parsed.get(chave, "").strip()`; None where it raises (a value that is
      not a string). */
  function Campo(d: Dict<string, Value>, chave: string): Option<string> {
    var v := Get(d, chave);
    if v.None? then Some("")
    else if v.value.VStr? then Some(Strip(v.value.s))
    else None
  }

  /** The object the answer decodes to: `json.loads(content)`, or on a decode
      error the dict built from the regular expression's groups; None where
      that raises (no match re-raises the decode error). A decoded value that
      is not a dict raises at `.get`, so it is None too. */
  function Decodificar(content: string, jsonLoads: string -> Option<Value>): Option<Dict<string, Value>> {
    match jsonLoads(content)
    case Some(parsed) =>
      if parsed.VDict? then Some(parsed.entries) else None
    case None =>
      match MetricaPorRegex(content)
      case None => None
      case Some((coluna, rotulo)) => Some([("coluna", VStr(coluna)), ("label", VStr(rotulo))])
  }

  /** From the cleaned answer: an unusable column gives `Geral`, a raise gives
      `GeralDefault`, and a known column keeps its label or, when that is
      empty, takes the table's. */
  function MetricaDaResposta(content: string, jsonLoads: string -> Option<Value>): (r: (string, string))
    ensures r == Geral || r == GeralDefault || (r.0 != "" && r.0 in Metricas && r.1 != "")
  {
    MetricasLabelsNonEmpty();
    match Decodificar(content, jsonLoads)
    case None => GeralDefault
    case Some(d) =>
      var coluna := Campo(d, "coluna");
      var rotulo := Campo(d, "label");
      if coluna.None? || rotulo.None? then GeralDefault
      else if coluna.value == "" || coluna.value !in Metricas then Geral
      else (coluna.value, if rotulo.value != "" then rotulo.value else Metricas[coluna.value])
  }

  /** The language model on the question (the text of its answer, or an
      exception) and `json.loads` (None for a decode error). */
  datatype OraculosMetrica = OraculosMetrica(llm: string -> Result<string>,
                                             jsonLoads: string -> Option<Value>)

  /** The language-model branch: any exception gives `GeralDefault`. */
  function MetricaViaLlm(pergunta: string, o: OraculosMetrica): (r: (string, string))
    ensures r == Geral || r == GeralDefault || (r.0 != "" && r.0 in Metricas && r.1 != "")
    ensures o.llm(pergunta).Failure? ==> r == GeralDefault
  {
    match o.llm(pergunta)
    case Failure(_) => GeralDefault
    case Success(resposta) =>
      MetricaDaResposta(SemanticRouter.LimparMarcacoes(Strip(resposta)), o.jsonLoads)
  }

  /** `classificar_metrica(pergunta)` */
  function ClassificarMetrica(pergunta: string, o: OraculosMetrica): (r: (string, string))
    ensures AplicarHeuristica(pergunta).Some? ==> r == AplicarHeuristica(pergunta).value
    ensures AplicarHeuristica(pergunta).None? ==> r == MetricaViaLlm(pergunta, o)
    ensures r == Geral || r == GeralDefault || (r.0 != "" && r.0 in Metricas && r.1 != "")
  {
    var hit := AplicarHeuristica(pergunta);
    AplicarHeuristicaLabelled(pergunta);
    if hit.Some? then hit.value else MetricaViaLlm(pergunta, o)
  }
}
