/**
  The lookup tables of backend/config/dicionarios.py and the per-topic
  keyword patterns derived from them.
*/
module Dicionarios {
  import opened Wrappers
  import opened PyText
  import opened PyDict

  // ---------------------------------------------------------------------
  // METRICAS_VALIDAS
  // ---------------------------------------------------------------------

  /** Column -> human-readable label. The table is only ever looked up, never
      iterated, so it is a map; as in a Python dict literal, a key written twice
      ("matriculas_eja") keeps the value written last. */
  const MetricasValidas: map<string, string> :=
    MetricasPart0 + MetricasPart1 + MetricasPart2 + MetricasPart3

  // The literal is written in consecutive parts, each later part overriding
  // the earlier ones, which is what a repeated key in one dict literal does.
  const MetricasPart0: map<string, string> := map[
    "populacao_total" := "População Total",
    "pib_per_capita" := "PIB per Capita",
    "matriculas_educacao_infantil" := "Matrículas - Educação Infantil",
    "matriculas_ensino_fundamental" := "Matrículas - Ensino Fundamental",
    "matriculas_ensino_medio" := "Matrículas - Ensino Médio",
    "matriculas_eja" := "Matrículas - EJA",
    "matriculas_educacao_especial" := "Matrículas - Educação Especial",
    "matriculas_ensino_tecnico" := "Matrículas - Curso Técnico Básico",
    "turmas_educacao_infantil" := "Turmas - Educação Infantil",
    "turmas_ensino_fundamental" := "Turmas - Ensino Fundamental",
    "turmas_ensino_medio" := "Turmas - Ensino Médio",
    "turmas_eja" := "Turmas - EJA",
    "turmas_educacao_especial" := "Turmas - Educação Especial"
  ]

  const MetricasPart1: map<string, string> := map[
    "turmas_ensino_tecnico" := "Turmas - Curso Técnico Básico",
    "docentes_educacao_infantil" := "Docentes - Educação Infantil",
    "docentes_ensino_fundamental" := "Docentes - Ensino Fundamental",
    "docentes_ensino_medio" := "Docentes - Ensino Médio",
    "docentes_eja" := "Docentes - EJA",
    "docentes_educacao_especial" := "Docentes - Educação Especial",
    "docentes_ensino_tecnico" := "Docentes - Curso Técnico Básico",
    "escolas_educacao_infantil" := "Escolas - Educação Infantil",
    "escolas_ensino_fundamental" := "Escolas - Ensino Fundamental",
    "escolas_ensino_medio" := "Escolas - Ensino Médio",
    "escolas_eja" := "Escolas - EJA",
    "escolas_educacao_especial" := "Escolas - Educação Especial",
    "escolas_ensino_tecnico" := "Escolas - Curso Técnico Básico"
  ]

  const MetricasPart2: map<string, string> := map[
    "escolas_com_biblioteca" := "Infraestrutura - Bibliotecas",
    "escolas_com_laboratorio_ciencias" := "Infraestrutura - Lab. Ciências",
    "escolas_com_laboratorio_informatica" := "Infraestrutura - Lab. Informática",
    "escolas_com_cozinha" := "Infraestrutura - Cozinhas",
    "escolas_com_refeitorio" := "Infraestrutura - Refeitórios",
    "escolas_com_quadra_esportes" := "Infraestrutura - Quadras",
    "escolas_com_acesso_internet" := "Infraestrutura - Internet",
    "escolas_com_acessibilidade_rampas" := "Infraestrutura - Acessibilidade",
    "profissionais_com_formacao_pedagogia" := "Profissionais com Formação Pedagógica",
    "profissionais_coordenadores" := "Coordenadores Pedagógicos",
    "profissionais_monitores" := "Monitores Educacionais",
    "qt_curso_tec" := "Cursos Técnicos - Total de Cursos",
    "qt_mat_curso_tec" := "Matrículas - Total de Cursos Técnicos"
  ]

  const MetricasPart3: map<string, string> := map[
    "cursos_integrados_ct" := "Cursos Técnicos Integrados (CT)",
    "matriculas_integrados_ct" := "Matrículas - Cursos Integrados (CT)",
    "cursos_nivel_medio_nm" := "Cursos Técnicos Nível Médio (NM)",
    "matriculas_nivel_medio_nm" := "Matrículas - Cursos Nível Médio (NM)",
    "cursos_concomitantes" := "Cursos Técnicos Concomitantes",
    "matriculas_concomitantes" := "Matrículas - Cursos Concomitantes",
    "cursos_subsequentes" := "Cursos Técnicos Subsequentes",
    "matriculas_subsequentes" := "Matrículas - Cursos Subsequentes",
    "cursos_eja" := "Cursos Técnicos EJA",
    "matriculas_eja" := "Matrículas - Cursos EJA"
  ]

  // ---------------------------------------------------------------------
  // COMPARATIVE_PATTERNS
  // ---------------------------------------------------------------------

  const ComparativePatterns: seq<string> := [
    "\\bcompare\\b",
    "\\bcomparar\\b",
    "\\bversus\\b",
    "\\bvs\\b",
    "\\bcontra\\b",
    "\\bmais desenvolvida\\b",
    "\\bmenor desigualdade\\b"
  ]

  // ---------------------------------------------------------------------
  // HEURISTICAS
  // ---------------------------------------------------------------------

  /** The HEURISTICAS literal: search term -> column, as written, in order
      (in consecutive parts of at most 10 entries). */
  const HeuristicasLiteral: seq<(string, string)> :=
    HeuristicasPart0 + HeuristicasPart1 + HeuristicasPart2 + HeuristicasPart3
    + HeuristicasPart4 + HeuristicasPart5 + HeuristicasPart6 + HeuristicasPart7
    + HeuristicasPart8 + HeuristicasPart9 + HeuristicasPart10 + HeuristicasPart11
    + HeuristicasPart12 + HeuristicasPart13 + HeuristicasPart14 + HeuristicasPart15

  const HeuristicasPart0: seq<(string, string)> := [
    ("população total", "populacao_total"),
    ("total da população", "populacao_total"),
    ("população residente", "populacao_total"),
    ("população estimada", "populacao_total"),
    ("população projetada", "populacao_total"),
    ("população municipal", "populacao_total"),
    ("população", "populacao_total"),
    ("populacao", "populacao_total"),
    ("habitantes", "populacao_total"),
    ("total de pessoas", "populacao_total")
  ]

  const HeuristicasPart1: seq<(string, string)> := [
    ("total de moradores", "populacao_total"),
    ("moradores", "populacao_total"),
    ("residentes", "populacao_total"),
    ("quantidade de habitantes", "populacao_total"),
    ("número de habitantes", "populacao_total"),
    ("estimativa populacional", "populacao_total"),
    ("ano de referência população", "ano_populacao"),
    ("ano de referência da população", "ano_populacao"),
    ("ano da população", "ano_populacao"),
    ("ano populacao", "ano_populacao")
  ]

  const HeuristicasPart2: seq<(string, string)> := [
    ("pib per capita", "pib_per_capita"),
    ("pib percapita", "pib_per_capita"),
    ("pib", "pib_per_capita"),
    ("produto interno bruto per capita", "pib_per_capita"),
    ("produto interno bruto", "pib_per_capita"),
    ("valor do pib per capita", "pib_per_capita"),
    ("valor do pib", "pib_per_capita"),
    ("renda per capita", "pib_per_capita"),
    ("renda média per capita", "pib_per_capita"),
    ("ano do pib", "ano_pib")
  ]

  const HeuristicasPart3: seq<(string, string)> := [
    ("ano de referência pib", "ano_pib"),
    ("ano do produto interno bruto", "ano_pib"),
    ("ano pib", "ano_pib"),
    ("matrículas educação infantil", "matriculas_educacao_infantil"),
    ("matriculas educacao infantil", "matriculas_educacao_infantil"),
    ("matriculas de educacao infantil", "matriculas_educacao_infantil"),
    ("matriculas no ensino infantil", "matriculas_educacao_infantil"),
    ("matrículas ensino fundamental", "matriculas_ensino_fundamental"),
    ("matriculas ensino fundamental", "matriculas_ensino_fundamental"),
    ("matriculas de ensino fundamental", "matriculas_ensino_fundamental")
  ]

  const HeuristicasPart4: seq<(string, string)> := [
    ("matriculas no ensino fundamental", "matriculas_ensino_fundamental"),
    ("matrículas ensino médio", "matriculas_ensino_medio"),
    ("matriculas ensino medio", "matriculas_ensino_medio"),
    ("matriculas de ensino medio", "matriculas_ensino_medio"),
    ("matriculas no ensino medio", "matriculas_ensino_medio"),
    ("matrículas eja", "matriculas_eja"),
    ("matriculas eja", "matriculas_eja"),
    ("matriculas de eja", "matriculas_eja"),
    ("matrículas de eja", "matriculas_eja"),
    ("matriculas no eja", "matriculas_eja")
  ]

  const HeuristicasPart5: seq<(string, string)> := [
    ("matrículas educação especial", "matriculas_educacao_especial"),
    ("matriculas educacao especial", "matriculas_educacao_especial"),
    ("matriculas de educacao especial", "matriculas_educacao_especial"),
    ("matriculas no educacao especial", "matriculas_educacao_especial"),
    ("matrículas técnico básico", "matriculas_ensino_tecnico"),
    ("matriculas tecnico basico", "matriculas_ensino_tecnico"),
    ("matriculas em ensino tecnico", "matriculas_ensino_tecnico"),
    ("turmas de educação infantil", "turmas_educacao_infantil"),
    ("turmas educação infantil", "turmas_educacao_infantil"),
    ("turmas no ensino infantil", "turmas_educacao_infantil")
  ]

  const HeuristicasPart6: seq<(string, string)> := [
    ("turmas de ensino fundamental", "turmas_ensino_fundamental"),
    ("turmas ensino fundamental", "turmas_ensino_fundamental"),
    ("turmas no ensino fundamental", "turmas_ensino_fundamental"),
    ("turmas de ensino médio", "turmas_ensino_medio"),
    ("turmas ensino médio", "turmas_ensino_medio"),
    ("turmas no ensino médio", "turmas_ensino_medio"),
    ("turmas eja", "turmas_eja"),
    ("turmas de eja", "turmas_eja"),
    ("turmas no eja", "turmas_eja"),
    ("turmas de educação especial", "turmas_educacao_especial")
  ]

  const HeuristicasPart7: seq<(string, string)> := [
    ("turmas educação especial", "turmas_educacao_especial"),
    ("turmas técnico básico", "turmas_ensino_tecnico"),
    ("turmas de tecnico basico", "turmas_ensino_tecnico"),
    ("docentes educação infantil", "docentes_educacao_infantil"),
    ("professores educação infantil", "docentes_educacao_infantil"),
    ("docentes ensino fundamental", "docentes_ensino_fundamental"),
    ("professores ensino fundamental", "docentes_ensino_fundamental"),
    ("docentes ensino médio", "docentes_ensino_medio"),
    ("professores ensino médio", "docentes_ensino_medio"),
    ("docentes eja", "docentes_eja")
  ]

  const HeuristicasPart8: seq<(string, string)> := [
    ("professores eja", "docentes_eja"),
    ("docentes educação especial", "docentes_educacao_especial"),
    ("docentes de educação especial", "docentes_educacao_especial"),
    ("professores educação especial", "docentes_educacao_especial"),
    ("professores de educação especial", "docentes_educacao_especial"),
    ("professores de educação especial", "docentes_educacao_especial"),
    ("docentes técnico básico", "docentes_ensino_tecnico"),
    ("professores técnico básico", "docentes_ensino_tecnico"),
    ("escolas de educação infantil", "escolas_educacao_infantil"),
    ("escolas educação infantil", "escolas_educacao_infantil")
  ]

  const HeuristicasPart9: seq<(string, string)> := [
    ("total de escolas de educação infantil", "escolas_educacao_infantil"),
    ("quantas escolas de educação infantil", "escolas_educacao_infantil"),
    ("escolas de ensino fundamental", "escolas_ensino_fundamental"),
    ("escolas ensino fundamental", "escolas_ensino_fundamental"),
    ("quantas escolas de ensino fundamental", "escolas_ensino_fundamental"),
    ("escolas de ensino médio", "escolas_ensino_medio"),
    ("escolas ensino médio", "escolas_ensino_medio"),
    ("quantas escolas de ensino médio", "escolas_ensino_medio"),
    ("escolas eja", "escolas_eja"),
    ("escolas de eja", "escolas_eja")
  ]

  const HeuristicasPart10: seq<(string, string)> := [
    ("escolas de educação especial", "escolas_educacao_especial"),
    ("escolas de educação especial", "escolas_educacao_especial"),
    ("escolas técnico", "escolas_ensino_tecnico"),
    ("escolas técnica", "escolas_ensino_tecnico"),
    ("escolas de ensino técnico", "escolas_ensino_tecnico"),
    ("biblioteca", "escolas_com_biblioteca"),
    ("escolas com biblioteca", "escolas_com_biblioteca"),
    ("laboratório de ciências", "escolas_com_laboratorio_ciencias"),
    ("laboratorio de ciencias", "escolas_com_laboratorio_ciencias"),
    ("laboratório de informática", "escolas_com_laboratorio_informatica")
  ]

  const HeuristicasPart11: seq<(string, string)> := [
    ("laboratorio de informatica", "escolas_com_laboratorio_informatica"),
    ("cozinha", "escolas_com_cozinha"),
    ("escolas com cozinha", "escolas_com_cozinha"),
    ("refeitório", "escolas_com_refeitorio"),
    ("refeitorio", "escolas_com_refeitorio"),
    ("quadra esportiva", "escolas_com_quadra_esportes"),
    ("quadra", "escolas_com_quadra_esportes"),
    ("internet", "escolas_com_acesso_internet"),
    ("acesso à internet", "escolas_com_acesso_internet"),
    ("acessibilidade", "escolas_com_acessibilidade_rampas")
  ]

  const HeuristicasPart12: seq<(string, string)> := [
    ("acesso para deficientes", "escolas_com_acessibilidade_rampas"),
    ("formação pedagógica", "profissionais_com_formacao_pedagogia"),
    ("formacao pedagogica", "profissionais_com_formacao_pedagogia"),
    ("coordenadores pedagógicos", "profissionais_coordenadores"),
    ("coordenadores pedagogicos", "profissionais_coordenadores"),
    ("monitores", "profissionais_monitores"),
    ("quantos cursos técnicos", "qt_curso_tec"),
    ("quais cursos técnicos", "qt_curso_tec"),
    ("total cursos técnicos", "qt_curso_tec"),
    ("cursos técnicos", "qt_curso_tec")
  ]

  const HeuristicasPart13: seq<(string, string)> := [
    ("qt cursos técnicos", "qt_curso_tec"),
    ("matrículas cursos técnicos", "qt_mat_curso_tec"),
    ("matriculas cursos técnicos", "qt_mat_curso_tec"),
    ("matriculas em cursos técnicos", "qt_mat_curso_tec"),
    ("cursos integrados", "cursos_integrados_ct"),
    ("integrados", "cursos_integrados_ct"),
    ("matrículas integrados", "matriculas_integrados_ct"),
    ("matriculas integrados", "matriculas_integrados_ct"),
    ("cursos concomitantes", "cursos_concomitantes"),
    ("concomitantes", "cursos_concomitantes")
  ]

  const HeuristicasPart14: seq<(string, string)> := [
    ("matrículas concomitantes", "matriculas_concomitantes"),
    ("matriculas concomitantes", "matriculas_concomitantes"),
    ("cursos subsequentes", "cursos_subsequentes"),
    ("subsequentes", "cursos_subsequentes"),
    ("matrículas subsequentes", "matriculas_subsequentes"),
    ("matriculas subsequentes", "matriculas_subsequentes"),
    ("cursos eja técnicos", "cursos_eja"),
    ("eja técnicos", "cursos_eja"),
    ("matrículas eja técnicos", "matriculas_eja"),
    ("matriculas eja técnicos", "matriculas_eja")
  ]

  const HeuristicasPart15: seq<(string, string)> := [
    ("ano do censo técnico", "ano_censo"),
    ("ano do censo", "ano_censo"),
    ("censo técnico", "ano_censo"),
    ("total de matrículas em cursos técnicos", "qt_mat_curso_tec")
  ]

  /** The HEURISTICAS dict the literal builds. */
  const Heuristicas: Dict<string, string> := FromItems(HeuristicasLiteral)

  /** The columns that have no entry in METRICAS_VALIDAS: the reference years. */
  const YearColumns: set<string> := {"ano_populacao", "ano_pib", "ano_censo"}

  // ---------------------------------------------------------------------
  // ESTADOS
  // ---------------------------------------------------------------------

  /** The ESTADOS literal: state code -> search terms, in order. */
  const EstadosLiteral: seq<(string, seq<string>)> := [
    ("AC", ["acre", "ac"]),
    ("AL", ["alagoas", "al"]),
    ("AP", ["amapa", "ap"]),
    ("AM", ["amazonas", "am"]),
    ("BA", ["bahia", "ba"]),
    ("CE", ["ceara", "ce"]),
    ("DF", ["distrito federal", "df", "brasilia"]),
    ("ES", ["espirito santo", "es"]),
    ("GO", ["goias", "go"]),
    ("MA", ["maranhao", "ma"]),
    ("MT", ["mato grosso", "mt"]),
    ("MS", ["mato grosso do sul", "ms"]),
    ("MG", ["minas gerais", "mg"]),
    ("PA", ["para", "pa"]),
    ("PB", ["paraiba", "pb"]),
    ("PR", ["parana", "pr"]),
    ("PE", ["pernambuco", "pe"]),
    ("PI", ["piaui", "pi"]),
    ("RJ", ["rio de janeiro", "rj", "carioca"]),
    ("RN", ["rio grande do norte", "rn"]),
    ("RS", ["rio grande do sul", "rs", "gaucho", "gaúcho"]),
    ("RO", ["rondonia", "ro"]),
    ("RR", ["roraima", "rr"]),
    ("SC", ["santa catarina", "sc", "catarinense"]),
    ("SP", ["sao paulo", "sp", "paulista"]),
    ("SE", ["sergipe", "se"]),
    ("TO", ["tocantins", "to"])
  ]

  /** The ESTADOS dict. The literal writes each code once, so the dict the
      literal builds is the literal itself (EstadosShape). */
  const Estados: Dict<string, seq<string>> := EstadosLiteral

  // ---------------------------------------------------------------------
  // THEME_KEYWORDS and TEMAS_VALIDOS
  // ---------------------------------------------------------------------

  /** `rf"\\b{re.escape(term)}\\b"`: the term as a whole word. */
  function TermPattern(term: string): string {
    "\\b" + ReEscape(term) + "\\b"
  }

  /** `[TermPattern(term) for term, col in h.items() if keep(col)]` */
  function PatternsWhere(h: Dict<string, string>, keep: string -> bool): (r: seq<string>)
    ensures |r| <= |h|
    ensures forall p :: p in r <==> exists i :: 0 <= i < |h| && keep(h[i].1) && p == TermPattern(h[i].0)
  {
    if h == [] then []
    else
      var rest := PatternsWhere(h[1..], keep);
      assert forall i :: 1 <= i < |h| ==> h[i] == h[1..][i - 1];
      (if keep(h[0].1) then [TermPattern(h[0].0)] else []) + rest
  }

  predicate IsPopulacaoColumn(col: string) {
    col == "populacao_total" || col == "ano_populacao"
  }

  predicate IsEconomiaColumn(col: string) {
    col == "pib_per_capita" || col == "ano_pib"
  }

  const EducacaoPrefixes: seq<string> :=
    ["matriculas_", "turmas_", "docentes_", "escolas_", "escolas_com_", "profissionais_"]

  const TecnicaPrefixes: seq<string> := [
    "qt_curso_tec", "qt_mat_curso_tec", "cursos_integrados_ct", "matriculas_integrados_ct",
    "cursos_nivel_medio_nm", "matriculas_nivel_medio_nm", "cursos_concomitantes",
    "matriculas_concomitantes", "cursos_subsequentes", "matriculas_subsequentes",
    "cursos_eja", "matriculas_eja", "ano_censo"
  ]

  predicate IsEducacaoColumn(col: string) {
    StartsWithAny(col, EducacaoPrefixes)
  }

  predicate IsTecnicaColumn(col: string) {
    StartsWithAny(col, TecnicaPrefixes)
  }

  /** The THEME_KEYWORDS literal, built from a term -> column table. */
  function ThemeKeywordsOf(h: Dict<string, string>): seq<(string, seq<string>)> {
    [ ("populacao", PatternsWhere(h, IsPopulacaoColumn)),
      ("economia", PatternsWhere(h, IsEconomiaColumn)),
      ("educacao", PatternsWhere(h, IsEducacaoColumn)),
      ("tecnica", PatternsWhere(h, IsTecnicaColumn)),
      ("comparative", ComparativePatterns) ]
  }

  /** THEME_KEYWORDS, built from HEURISTICAS. */
  const ThemeKeywords: Dict<string, seq<string>> := FromItems(ThemeKeywordsOf(Heuristicas))

  const TemasValidos: seq<string> := ["populacao", "economia", "educacao", "tecnica", "comparative"]

  // ---------------------------------------------------------------------
  // Every search term's column has a label, except the year columns
  // ---------------------------------------------------------------------

  predicate Labelled(col: string) {
    col in MetricasPart0 || col in MetricasPart1 || col in MetricasPart2 || col in MetricasPart3
    || col in YearColumns
  }

  predicate AllLabelled(items: seq<(string, string)>) {
    forall i :: 0 <= i < |items| ==> Labelled(items[i].1)
  }

  lemma AllLabelledAppend(a: seq<(string, string)>, b: seq<(string, string)>)
    requires AllLabelled(a) && AllLabelled(b)
    ensures AllLabelled(a + b)
  {
    forall i | 0 <= i < |a + b| ensures Labelled((a + b)[i].1) {
      if i >= |a| {
        assert (a + b)[i] == b[i - |a|];
      }
    }
  }

  lemma HeuristicasPart0Labelled()
    ensures AllLabelled(HeuristicasPart0)
  {
    forall i | 0 <= i < |HeuristicasPart0| ensures Labelled(HeuristicasPart0[i].1) {
      assert i in {0, 1, 2, 3, 4, 5, 6, 7, 8, 9};
    }
  }

  lemma HeuristicasPart1Labelled()
    ensures AllLabelled(HeuristicasPart1)
  {
    forall i | 0 <= i < |HeuristicasPart1| ensures Labelled(HeuristicasPart1[i].1) {
      assert i in {0, 1, 2, 3, 4, 5, 6, 7, 8, 9};
    }
  }

  lemma HeuristicasPart2Labelled()
    ensures AllLabelled(HeuristicasPart2)
  {
    forall i | 0 <= i < |HeuristicasPart2| ensures Labelled(HeuristicasPart2[i].1) {
      assert i in {0, 1, 2, 3, 4, 5, 6, 7, 8, 9};
    }
  }

  lemma HeuristicasPart3Labelled()
    ensures AllLabelled(HeuristicasPart3)
  {
    forall i | 0 <= i < |HeuristicasPart3| ensures Labelled(HeuristicasPart3[i].1) {
      assert i in {0, 1, 2, 3, 4, 5, 6, 7, 8, 9};
    }
  }

  lemma HeuristicasPart4Labelled()
    ensures AllLabelled(HeuristicasPart4)
  {
    forall i | 0 <= i < |HeuristicasPart4| ensures Labelled(HeuristicasPart4[i].1) {
      assert i in {0, 1, 2, 3, 4, 5, 6, 7, 8, 9};
    }
  }

  lemma HeuristicasPart5Labelled()
    ensures AllLabelled(HeuristicasPart5)
  {
    forall i | 0 <= i < |HeuristicasPart5| ensures Labelled(HeuristicasPart5[i].1) {
      assert i in {0, 1, 2, 3, 4, 5, 6, 7, 8, 9};
    }
  }

  lemma HeuristicasPart6Labelled()
    ensures AllLabelled(HeuristicasPart6)
  {
    forall i | 0 <= i < |HeuristicasPart6| ensures Labelled(HeuristicasPart6[i].1) {
      assert i in {0, 1, 2, 3, 4, 5, 6, 7, 8, 9};
    }
  }

  lemma HeuristicasPart7Labelled()
    ensures AllLabelled(HeuristicasPart7)
  {
    forall i | 0 <= i < |HeuristicasPart7| ensures Labelled(HeuristicasPart7[i].1) {
      assert i in {0, 1, 2, 3, 4, 5, 6, 7, 8, 9};
    }
  }

  lemma HeuristicasPart8Labelled()
    ensures AllLabelled(HeuristicasPart8)
  {
    forall i | 0 <= i < |HeuristicasPart8| ensures Labelled(HeuristicasPart8[i].1) {
      assert i in {0, 1, 2, 3, 4, 5, 6, 7, 8, 9};
    }
  }

  lemma HeuristicasPart9Labelled()
    ensures AllLabelled(HeuristicasPart9)
  {
    forall i | 0 <= i < |HeuristicasPart9| ensures Labelled(HeuristicasPart9[i].1) {
      assert i in {0, 1, 2, 3, 4, 5, 6, 7, 8, 9};
    }
  }

  lemma HeuristicasPart10Labelled()
    ensures AllLabelled(HeuristicasPart10)
  {
    forall i | 0 <= i < |HeuristicasPart10| ensures Labelled(HeuristicasPart10[i].1) {
      assert i in {0, 1, 2, 3, 4, 5, 6, 7, 8, 9};
    }
  }

  lemma HeuristicasPart11Labelled()
    ensures AllLabelled(HeuristicasPart11)
  {
    forall i | 0 <= i < |HeuristicasPart11| ensures Labelled(HeuristicasPart11[i].1) {
      assert i in {0, 1, 2, 3, 4, 5, 6, 7, 8, 9};
    }
  }

  lemma HeuristicasPart12Labelled()
    ensures AllLabelled(HeuristicasPart12)
  {
    forall i | 0 <= i < |HeuristicasPart12| ensures Labelled(HeuristicasPart12[i].1) {
      assert i in {0, 1, 2, 3, 4, 5, 6, 7, 8, 9};
    }
  }

  lemma HeuristicasPart13Labelled()
    ensures AllLabelled(HeuristicasPart13)
  {
    forall i | 0 <= i < |HeuristicasPart13| ensures Labelled(HeuristicasPart13[i].1) {
      assert i in {0, 1, 2, 3, 4, 5, 6, 7, 8, 9};
    }
  }

  lemma HeuristicasPart14Labelled()
    ensures AllLabelled(HeuristicasPart14)
  {
    forall i | 0 <= i < |HeuristicasPart14| ensures Labelled(HeuristicasPart14[i].1) {
      assert i in {0, 1, 2, 3, 4, 5, 6, 7, 8, 9};
    }
  }

  lemma HeuristicasPart15Labelled()
    ensures AllLabelled(HeuristicasPart15)
  {
    forall i | 0 <= i < |HeuristicasPart15| ensures Labelled(HeuristicasPart15[i].1) {
      assert i in {0, 1, 2, 3};
    }
  }

  lemma HeuristicasLiteralLabelled()
    ensures AllLabelled(HeuristicasLiteral)
  {
    HeuristicasPart0Labelled();
    HeuristicasPart1Labelled();
    HeuristicasPart2Labelled();
    HeuristicasPart3Labelled();
    HeuristicasPart4Labelled();
    HeuristicasPart5Labelled();
    HeuristicasPart6Labelled();
    HeuristicasPart7Labelled();
    HeuristicasPart8Labelled();
    HeuristicasPart9Labelled();
    HeuristicasPart10Labelled();
    HeuristicasPart11Labelled();
    HeuristicasPart12Labelled();
    HeuristicasPart13Labelled();
    HeuristicasPart14Labelled();
    HeuristicasPart15Labelled();
    AllLabelledAppend(HeuristicasPart0, HeuristicasPart1);
    AllLabelledAppend(HeuristicasPart0 + HeuristicasPart1, HeuristicasPart2);
    AllLabelledAppend(HeuristicasPart0 + HeuristicasPart1 + HeuristicasPart2, HeuristicasPart3);
    AllLabelledAppend(HeuristicasPart0 + HeuristicasPart1 + HeuristicasPart2 + HeuristicasPart3, HeuristicasPart4);
    AllLabelledAppend(HeuristicasPart0 + HeuristicasPart1 + HeuristicasPart2 + HeuristicasPart3 + HeuristicasPart4, HeuristicasPart5);
    AllLabelledAppend(HeuristicasPart0 + HeuristicasPart1 + HeuristicasPart2 + HeuristicasPart3 + HeuristicasPart4 + HeuristicasPart5, HeuristicasPart6);
    AllLabelledAppend(HeuristicasPart0 + HeuristicasPart1 + HeuristicasPart2 + HeuristicasPart3 + HeuristicasPart4 + HeuristicasPart5 + HeuristicasPart6, HeuristicasPart7);
    AllLabelledAppend(HeuristicasPart0 + HeuristicasPart1 + HeuristicasPart2 + HeuristicasPart3 + HeuristicasPart4 + HeuristicasPart5 + HeuristicasPart6 + HeuristicasPart7, HeuristicasPart8);
    AllLabelledAppend(HeuristicasPart0 + HeuristicasPart1 + HeuristicasPart2 + HeuristicasPart3 + HeuristicasPart4 + HeuristicasPart5 + HeuristicasPart6 + HeuristicasPart7 + HeuristicasPart8, HeuristicasPart9);
    AllLabelledAppend(HeuristicasPart0 + HeuristicasPart1 + HeuristicasPart2 + HeuristicasPart3 + HeuristicasPart4 + HeuristicasPart5 + HeuristicasPart6 + HeuristicasPart7 + HeuristicasPart8 + HeuristicasPart9, HeuristicasPart10);
    AllLabelledAppend(HeuristicasPart0 + HeuristicasPart1 + HeuristicasPart2 + HeuristicasPart3 + HeuristicasPart4 + HeuristicasPart5 + HeuristicasPart6 + HeuristicasPart7 + HeuristicasPart8 + HeuristicasPart9 + HeuristicasPart10, HeuristicasPart11);
    AllLabelledAppend(HeuristicasPart0 + HeuristicasPart1 + HeuristicasPart2 + HeuristicasPart3 + HeuristicasPart4 + HeuristicasPart5 + HeuristicasPart6 + HeuristicasPart7 + HeuristicasPart8 + HeuristicasPart9 + HeuristicasPart10 + HeuristicasPart11, HeuristicasPart12);
    AllLabelledAppend(HeuristicasPart0 + HeuristicasPart1 + HeuristicasPart2 + HeuristicasPart3 + HeuristicasPart4 + HeuristicasPart5 + HeuristicasPart6 + HeuristicasPart7 + HeuristicasPart8 + HeuristicasPart9 + HeuristicasPart10 + HeuristicasPart11 + HeuristicasPart12, HeuristicasPart13);
    AllLabelledAppend(HeuristicasPart0 + HeuristicasPart1 + HeuristicasPart2 + HeuristicasPart3 + HeuristicasPart4 + HeuristicasPart5 + HeuristicasPart6 + HeuristicasPart7 + HeuristicasPart8 + HeuristicasPart9 + HeuristicasPart10 + HeuristicasPart11 + HeuristicasPart12 + HeuristicasPart13, HeuristicasPart14);
    AllLabelledAppend(HeuristicasPart0 + HeuristicasPart1 + HeuristicasPart2 + HeuristicasPart3 + HeuristicasPart4 + HeuristicasPart5 + HeuristicasPart6 + HeuristicasPart7 + HeuristicasPart8 + HeuristicasPart9 + HeuristicasPart10 + HeuristicasPart11 + HeuristicasPart12 + HeuristicasPart13 + HeuristicasPart14, HeuristicasPart15);
  }

  lemma YearColumnsNotInPart0(c: string)
    requires c in YearColumns
    ensures c !in MetricasPart0
  {
  }

  lemma YearColumnsNotInPart1(c: string)
    requires c in YearColumns
    ensures c !in MetricasPart1
  {
  }

  lemma YearColumnsNotInPart2(c: string)
    requires c in YearColumns
    ensures c !in MetricasPart2
  {
  }

  lemma YearColumnsNotInPart3(c: string)
    requires c in YearColumns
    ensures c !in MetricasPart3
  {
  }

  /** The year columns have no label. */
  lemma YearColumnsUnlabelled()
    ensures forall c :: c in YearColumns ==> c !in MetricasValidas
  {
    forall c | c in YearColumns ensures c !in MetricasValidas {
      YearColumnsNotInPart0(c);
      YearColumnsNotInPart1(c);
      YearColumnsNotInPart2(c);
      YearColumnsNotInPart3(c);
    }
  }

  lemma LabelledHasLabel(col: string)
    requires Labelled(col)
    ensures col in MetricasValidas || col in YearColumns
  {
  }

  /** Every column a search term maps to has a label, except the three year
      columns, which have none. */
  lemma HeuristicasColumnsHaveLabels()
    ensures forall x :: x in Heuristicas ==> x.1 in MetricasValidas || x.1 in YearColumns
    ensures forall c :: c in YearColumns ==> c !in MetricasValidas
  {
    HeuristicasLiteralLabelled();
    ItemsLabelled(HeuristicasLiteral);
    forall x | x in Heuristicas ensures x.1 in MetricasValidas || x.1 in YearColumns {
      LabelledHasLabel(x.1);
    }
    YearColumnsUnlabelled();
  }

  /** Every item of a dict built from labelled items is labelled. */
  lemma ItemsLabelled(items: seq<(string, string)>)
    requires AllLabelled(items)
    ensures forall x :: x in FromItems(items) ==> Labelled(x.1)
  {
    FromItemsItems(items);
    forall x | x in FromItems(items) ensures Labelled(x.1) {
      var i :| 0 <= i < |items| && items[i] == x;
    }
  }

  lemma EstadoCodesDiffer00(i: int, j: int)
    requires 0 <= i < 9 && 0 <= j < 9 && i < j
    ensures EstadosLiteral[i].0 != EstadosLiteral[j].0
  {
    assert i in {0, 1, 2, 3, 4, 5, 6, 7, 8};
    assert j in {0, 1, 2, 3, 4, 5, 6, 7, 8};
  }

  lemma EstadoCodesDiffer01(i: int, j: int)
    requires 0 <= i < 9 && 9 <= j < 18 && i < j
    ensures EstadosLiteral[i].0 != EstadosLiteral[j].0
  {
    assert i in {0, 1, 2, 3, 4, 5, 6, 7, 8};
    assert j in {9, 10, 11, 12, 13, 14, 15, 16, 17};
  }

  lemma EstadoCodesDiffer02(i: int, j: int)
    requires 0 <= i < 9 && 18 <= j < 27 && i < j
    ensures EstadosLiteral[i].0 != EstadosLiteral[j].0
  {
    assert i in {0, 1, 2, 3, 4, 5, 6, 7, 8};
    assert j in {18, 19, 20, 21, 22, 23, 24, 25, 26};
  }

  lemma EstadoCodesDiffer11(i: int, j: int)
    requires 9 <= i < 18 && 9 <= j < 18 && i < j
    ensures EstadosLiteral[i].0 != EstadosLiteral[j].0
  {
    assert i in {9, 10, 11, 12, 13, 14, 15, 16, 17};
    assert j in {9, 10, 11, 12, 13, 14, 15, 16, 17};
  }

  lemma EstadoCodesDiffer12(i: int, j: int)
    requires 9 <= i < 18 && 18 <= j < 27 && i < j
    ensures EstadosLiteral[i].0 != EstadosLiteral[j].0
  {
    assert i in {9, 10, 11, 12, 13, 14, 15, 16, 17};
    assert j in {18, 19, 20, 21, 22, 23, 24, 25, 26};
  }

  lemma EstadoCodesDiffer22(i: int, j: int)
    requires 18 <= i < 27 && 18 <= j < 27 && i < j
    ensures EstadosLiteral[i].0 != EstadosLiteral[j].0
  {
    assert i in {18, 19, 20, 21, 22, 23, 24, 25, 26};
    assert j in {18, 19, 20, 21, 22, 23, 24, 25, 26};
  }

  lemma EstadosSynonyms(i: int)
    requires 0 <= i < |EstadosLiteral|
    ensures |EstadosLiteral[i].1| >= 2
  {
    assert i in {0, 1, 2, 3, 4, 5, 6, 7, 8, 9, 10, 11, 12, 13, 14, 15, 16, 17, 18, 19, 20, 21, 22, 23, 24, 25, 26};
  }

  /** ESTADOS has 27 distinct state codes, in the order written, each with at
      least two search terms. */
  lemma EstadosShape()
    ensures FromItems(EstadosLiteral) == Estados
    ensures |Estados| == 27
    ensures UniqueKeys(Estados)
    ensures forall i :: 0 <= i < |Estados| ==> |Estados[i].1| >= 2
  {
    forall i, j | 0 <= i < j < |EstadosLiteral|
      ensures EstadosLiteral[i].0 != EstadosLiteral[j].0
    {
      if 0 <= i < 9 && 0 <= j < 9 {
        EstadoCodesDiffer00(i, j);
      } else if 0 <= i < 9 && 9 <= j < 18 {
        EstadoCodesDiffer01(i, j);
      } else if 0 <= i < 9 && 18 <= j < 27 {
        EstadoCodesDiffer02(i, j);
      } else if 9 <= i < 18 && 9 <= j < 18 {
        EstadoCodesDiffer11(i, j);
      } else if 9 <= i < 18 && 18 <= j < 27 {
        EstadoCodesDiffer12(i, j);
      } else if 18 <= i < 27 && 18 <= j < 27 {
        EstadoCodesDiffer22(i, j);
      }
    }
    FromItemsOfUnique(EstadosLiteral);
    forall i | 0 <= i < |EstadosLiteral| ensures |EstadosLiteral[i].1| >= 2 {
      EstadosSynonyms(i);
    }
  }

  lemma HeuristicasPart5Omits()
    ensures !HasKey(HeuristicasPart5, "matrículas eja")
  {
    forall j | 0 <= j < |HeuristicasPart5| ensures HeuristicasPart5[j].0 != "matrículas eja" {
      assert j in {0, 1, 2, 3, 4, 5, 6, 7, 8, 9};
    }
  }

  lemma HeuristicasPart6Omits()
    ensures !HasKey(HeuristicasPart6, "matrículas eja")
  {
    forall j | 0 <= j < |HeuristicasPart6| ensures HeuristicasPart6[j].0 != "matrículas eja" {
      assert j in {0, 1, 2, 3, 4, 5, 6, 7, 8, 9};
    }
  }

  lemma HeuristicasPart7Omits()
    ensures !HasKey(HeuristicasPart7, "matrículas eja")
  {
    forall j | 0 <= j < |HeuristicasPart7| ensures HeuristicasPart7[j].0 != "matrículas eja" {
      assert j in {0, 1, 2, 3, 4, 5, 6, 7, 8, 9};
    }
  }

  lemma HeuristicasPart8Omits()
    ensures !HasKey(HeuristicasPart8, "matrículas eja")
  {
    forall j | 0 <= j < |HeuristicasPart8| ensures HeuristicasPart8[j].0 != "matrículas eja" {
      assert j in {0, 1, 2, 3, 4, 5, 6, 7, 8, 9};
    }
  }

  lemma HeuristicasPart9Omits()
    ensures !HasKey(HeuristicasPart9, "matrículas eja")
    ensures !HasKey(HeuristicasPart9, "professores de educação especial")
  {
    forall j | 0 <= j < |HeuristicasPart9| ensures HeuristicasPart9[j].0 != "matrículas eja" && HeuristicasPart9[j].0 != "professores de educação especial" {
      assert j in {0, 1, 2, 3, 4, 5, 6, 7, 8, 9};
    }
  }

  lemma HeuristicasPart10Omits()
    ensures !HasKey(HeuristicasPart10, "matrículas eja")
    ensures !HasKey(HeuristicasPart10, "professores de educação especial")
  {
    forall j | 0 <= j < |HeuristicasPart10| ensures HeuristicasPart10[j].0 != "matrículas eja" && HeuristicasPart10[j].0 != "professores de educação especial" {
      assert j in {0, 1, 2, 3, 4, 5, 6, 7, 8, 9};
    }
  }

  lemma HeuristicasPart11Omits()
    ensures !HasKey(HeuristicasPart11, "matrículas eja")
    ensures !HasKey(HeuristicasPart11, "professores de educação especial")
    ensures !HasKey(HeuristicasPart11, "escolas de educação especial")
  {
    forall j | 0 <= j < |HeuristicasPart11| ensures HeuristicasPart11[j].0 != "matrículas eja" && HeuristicasPart11[j].0 != "professores de educação especial" && HeuristicasPart11[j].0 != "escolas de educação especial" {
      assert j in {0, 1, 2, 3, 4, 5, 6, 7, 8, 9};
    }
  }

  lemma HeuristicasPart12Omits()
    ensures !HasKey(HeuristicasPart12, "matrículas eja")
    ensures !HasKey(HeuristicasPart12, "professores de educação especial")
    ensures !HasKey(HeuristicasPart12, "escolas de educação especial")
  {
    forall j | 0 <= j < |HeuristicasPart12| ensures HeuristicasPart12[j].0 != "matrículas eja" && HeuristicasPart12[j].0 != "professores de educação especial" && HeuristicasPart12[j].0 != "escolas de educação especial" {
      assert j in {0, 1, 2, 3, 4, 5, 6, 7, 8, 9};
    }
  }

  lemma HeuristicasPart13Omits()
    ensures !HasKey(HeuristicasPart13, "matrículas eja")
    ensures !HasKey(HeuristicasPart13, "professores de educação especial")
    ensures !HasKey(HeuristicasPart13, "escolas de educação especial")
  {
    forall j | 0 <= j < |HeuristicasPart13| ensures HeuristicasPart13[j].0 != "matrículas eja" && HeuristicasPart13[j].0 != "professores de educação especial" && HeuristicasPart13[j].0 != "escolas de educação especial" {
      assert j in {0, 1, 2, 3, 4, 5, 6, 7, 8, 9};
    }
  }

  lemma HeuristicasPart14Omits()
    ensures !HasKey(HeuristicasPart14, "matrículas eja")
    ensures !HasKey(HeuristicasPart14, "professores de educação especial")
    ensures !HasKey(HeuristicasPart14, "escolas de educação especial")
  {
    forall j | 0 <= j < |HeuristicasPart14| ensures HeuristicasPart14[j].0 != "matrículas eja" && HeuristicasPart14[j].0 != "professores de educação especial" && HeuristicasPart14[j].0 != "escolas de educação especial" {
      assert j in {0, 1, 2, 3, 4, 5, 6, 7, 8, 9};
    }
  }

  lemma HeuristicasPart15Omits()
    ensures !HasKey(HeuristicasPart15, "matrículas eja")
    ensures !HasKey(HeuristicasPart15, "professores de educação especial")
    ensures !HasKey(HeuristicasPart15, "escolas de educação especial")
  {
    forall j | 0 <= j < |HeuristicasPart15| ensures HeuristicasPart15[j].0 != "matrículas eja" && HeuristicasPart15[j].0 != "professores de educação especial" && HeuristicasPart15[j].0 != "escolas de educação especial" {
      assert j in {0, 1, 2, 3};
    }
  }

  lemma MatriculasEjaTermIn4()
    ensures Get(FromItems(HeuristicasPart0 + HeuristicasPart1 + HeuristicasPart2 + HeuristicasPart3 + HeuristicasPart4), "matrículas eja") == Some("matriculas_eja")
  {
    assert HeuristicasPart4[5] == ("matrículas eja", "matriculas_eja");
    forall j | 5 < j < |HeuristicasPart4| ensures HeuristicasPart4[j].0 != "matrículas eja" {
      assert j in {6, 7, 8, 9};
    }
    FromItemsLastWinsIn(HeuristicasPart0 + HeuristicasPart1 + HeuristicasPart2 + HeuristicasPart3, HeuristicasPart4, 5);
  }

  lemma MatriculasEjaTermIn8()
    ensures Get(FromItems(HeuristicasPart0 + HeuristicasPart1 + HeuristicasPart2 + HeuristicasPart3 + HeuristicasPart4 + HeuristicasPart5 + HeuristicasPart6 + HeuristicasPart7 + HeuristicasPart8), "matrículas eja") == Some("matriculas_eja")
  {
    MatriculasEjaTermIn4();
    HeuristicasPart5Omits();
    FromItemsGetAppend(HeuristicasPart0 + HeuristicasPart1 + HeuristicasPart2 + HeuristicasPart3 + HeuristicasPart4, HeuristicasPart5, "matrículas eja");
    HeuristicasPart6Omits();
    FromItemsGetAppend(HeuristicasPart0 + HeuristicasPart1 + HeuristicasPart2 + HeuristicasPart3 + HeuristicasPart4 + HeuristicasPart5, HeuristicasPart6, "matrículas eja");
    HeuristicasPart7Omits();
    FromItemsGetAppend(HeuristicasPart0 + HeuristicasPart1 + HeuristicasPart2 + HeuristicasPart3 + HeuristicasPart4 + HeuristicasPart5 + HeuristicasPart6, HeuristicasPart7, "matrículas eja");
    HeuristicasPart8Omits();
    FromItemsGetAppend(HeuristicasPart0 + HeuristicasPart1 + HeuristicasPart2 + HeuristicasPart3 + HeuristicasPart4 + HeuristicasPart5 + HeuristicasPart6 + HeuristicasPart7, HeuristicasPart8, "matrículas eja");
  }

  lemma MatriculasEjaTermIn12()
    ensures Get(FromItems(HeuristicasPart0 + HeuristicasPart1 + HeuristicasPart2 + HeuristicasPart3 + HeuristicasPart4 + HeuristicasPart5 + HeuristicasPart6 + HeuristicasPart7 + HeuristicasPart8 + HeuristicasPart9 + HeuristicasPart10 + HeuristicasPart11 + HeuristicasPart12), "matrículas eja") == Some("matriculas_eja")
  {
    MatriculasEjaTermIn8();
    HeuristicasPart9Omits();
    FromItemsGetAppend(HeuristicasPart0 + HeuristicasPart1 + HeuristicasPart2 + HeuristicasPart3 + HeuristicasPart4 + HeuristicasPart5 + HeuristicasPart6 + HeuristicasPart7 + HeuristicasPart8, HeuristicasPart9, "matrículas eja");
    HeuristicasPart10Omits();
    FromItemsGetAppend(HeuristicasPart0 + HeuristicasPart1 + HeuristicasPart2 + HeuristicasPart3 + HeuristicasPart4 + HeuristicasPart5 + HeuristicasPart6 + HeuristicasPart7 + HeuristicasPart8 + HeuristicasPart9, HeuristicasPart10, "matrículas eja");
    HeuristicasPart11Omits();
    FromItemsGetAppend(HeuristicasPart0 + HeuristicasPart1 + HeuristicasPart2 + HeuristicasPart3 + HeuristicasPart4 + HeuristicasPart5 + HeuristicasPart6 + HeuristicasPart7 + HeuristicasPart8 + HeuristicasPart9 + HeuristicasPart10, HeuristicasPart11, "matrículas eja");
    HeuristicasPart12Omits();
    FromItemsGetAppend(HeuristicasPart0 + HeuristicasPart1 + HeuristicasPart2 + HeuristicasPart3 + HeuristicasPart4 + HeuristicasPart5 + HeuristicasPart6 + HeuristicasPart7 + HeuristicasPart8 + HeuristicasPart9 + HeuristicasPart10 + HeuristicasPart11, HeuristicasPart12, "matrículas eja");
  }

  lemma MatriculasEjaTermIn15()
    ensures Get(FromItems(HeuristicasPart0 + HeuristicasPart1 + HeuristicasPart2 + HeuristicasPart3 + HeuristicasPart4 + HeuristicasPart5 + HeuristicasPart6 + HeuristicasPart7 + HeuristicasPart8 + HeuristicasPart9 + HeuristicasPart10 + HeuristicasPart11 + HeuristicasPart12 + HeuristicasPart13 + HeuristicasPart14 + HeuristicasPart15), "matrículas eja") == Some("matriculas_eja")
  {
    MatriculasEjaTermIn12();
    HeuristicasPart13Omits();
    FromItemsGetAppend(HeuristicasPart0 + HeuristicasPart1 + HeuristicasPart2 + HeuristicasPart3 + HeuristicasPart4 + HeuristicasPart5 + HeuristicasPart6 + HeuristicasPart7 + HeuristicasPart8 + HeuristicasPart9 + HeuristicasPart10 + HeuristicasPart11 + HeuristicasPart12, HeuristicasPart13, "matrículas eja");
    HeuristicasPart14Omits();
    FromItemsGetAppend(HeuristicasPart0 + HeuristicasPart1 + HeuristicasPart2 + HeuristicasPart3 + HeuristicasPart4 + HeuristicasPart5 + HeuristicasPart6 + HeuristicasPart7 + HeuristicasPart8 + HeuristicasPart9 + HeuristicasPart10 + HeuristicasPart11 + HeuristicasPart12 + HeuristicasPart13, HeuristicasPart14, "matrículas eja");
    HeuristicasPart15Omits();
    FromItemsGetAppend(HeuristicasPart0 + HeuristicasPart1 + HeuristicasPart2 + HeuristicasPart3 + HeuristicasPart4 + HeuristicasPart5 + HeuristicasPart6 + HeuristicasPart7 + HeuristicasPart8 + HeuristicasPart9 + HeuristicasPart10 + HeuristicasPart11 + HeuristicasPart12 + HeuristicasPart13 + HeuristicasPart14, HeuristicasPart15, "matrículas eja");
  }

  /** "matrículas eja" is a search term for the `matriculas_eja` column. */
  lemma MatriculasEjaTerm()
    ensures Get(Heuristicas, "matrículas eja") == Some("matriculas_eja")
  {
    MatriculasEjaTermIn15();
  }

  lemma ProfessoresEducacaoEspecialTermIn8()
    ensures Get(FromItems(HeuristicasPart0 + HeuristicasPart1 + HeuristicasPart2 + HeuristicasPart3 + HeuristicasPart4 + HeuristicasPart5 + HeuristicasPart6 + HeuristicasPart7 + HeuristicasPart8), "professores de educação especial") == Some("docentes_educacao_especial")
  {
    assert HeuristicasPart8[5] == ("professores de educação especial", "docentes_educacao_especial");
    forall j | 5 < j < |HeuristicasPart8| ensures HeuristicasPart8[j].0 != "professores de educação especial" {
      assert j in {6, 7, 8, 9};
    }
    FromItemsLastWinsIn(HeuristicasPart0 + HeuristicasPart1 + HeuristicasPart2 + HeuristicasPart3 + HeuristicasPart4 + HeuristicasPart5 + HeuristicasPart6 + HeuristicasPart7, HeuristicasPart8, 5);
  }

  lemma ProfessoresEducacaoEspecialTermIn12()
    ensures Get(FromItems(HeuristicasPart0 + HeuristicasPart1 + HeuristicasPart2 + HeuristicasPart3 + HeuristicasPart4 + HeuristicasPart5 + HeuristicasPart6 + HeuristicasPart7 + HeuristicasPart8 + HeuristicasPart9 + HeuristicasPart10 + HeuristicasPart11 + HeuristicasPart12), "professores de educação especial") == Some("docentes_educacao_especial")
  {
    ProfessoresEducacaoEspecialTermIn8();
    HeuristicasPart9Omits();
    FromItemsGetAppend(HeuristicasPart0 + HeuristicasPart1 + HeuristicasPart2 + HeuristicasPart3 + HeuristicasPart4 + HeuristicasPart5 + HeuristicasPart6 + HeuristicasPart7 + HeuristicasPart8, HeuristicasPart9, "professores de educação especial");
    HeuristicasPart10Omits();
    FromItemsGetAppend(HeuristicasPart0 + HeuristicasPart1 + HeuristicasPart2 + HeuristicasPart3 + HeuristicasPart4 + HeuristicasPart5 + HeuristicasPart6 + HeuristicasPart7 + HeuristicasPart8 + HeuristicasPart9, HeuristicasPart10, "professores de educação especial");
    HeuristicasPart11Omits();
    FromItemsGetAppend(HeuristicasPart0 + HeuristicasPart1 + HeuristicasPart2 + HeuristicasPart3 + HeuristicasPart4 + HeuristicasPart5 + HeuristicasPart6 + HeuristicasPart7 + HeuristicasPart8 + HeuristicasPart9 + HeuristicasPart10, HeuristicasPart11, "professores de educação especial");
    HeuristicasPart12Omits();
    FromItemsGetAppend(HeuristicasPart0 + HeuristicasPart1 + HeuristicasPart2 + HeuristicasPart3 + HeuristicasPart4 + HeuristicasPart5 + HeuristicasPart6 + HeuristicasPart7 + HeuristicasPart8 + HeuristicasPart9 + HeuristicasPart10 + HeuristicasPart11, HeuristicasPart12, "professores de educação especial");
  }

  lemma ProfessoresEducacaoEspecialTermIn15()
    ensures Get(FromItems(HeuristicasPart0 + HeuristicasPart1 + HeuristicasPart2 + HeuristicasPart3 + HeuristicasPart4 + HeuristicasPart5 + HeuristicasPart6 + HeuristicasPart7 + HeuristicasPart8 + HeuristicasPart9 + HeuristicasPart10 + HeuristicasPart11 + HeuristicasPart12 + HeuristicasPart13 + HeuristicasPart14 + HeuristicasPart15), "professores de educação especial") == Some("docentes_educacao_especial")
  {
    ProfessoresEducacaoEspecialTermIn12();
    HeuristicasPart13Omits();
    FromItemsGetAppend(HeuristicasPart0 + HeuristicasPart1 + HeuristicasPart2 + HeuristicasPart3 + HeuristicasPart4 + HeuristicasPart5 + HeuristicasPart6 + HeuristicasPart7 + HeuristicasPart8 + HeuristicasPart9 + HeuristicasPart10 + HeuristicasPart11 + HeuristicasPart12, HeuristicasPart13, "professores de educação especial");
    HeuristicasPart14Omits();
    FromItemsGetAppend(HeuristicasPart0 + HeuristicasPart1 + HeuristicasPart2 + HeuristicasPart3 + HeuristicasPart4 + HeuristicasPart5 + HeuristicasPart6 + HeuristicasPart7 + HeuristicasPart8 + HeuristicasPart9 + HeuristicasPart10 + HeuristicasPart11 + HeuristicasPart12 + HeuristicasPart13, HeuristicasPart14, "professores de educação especial");
    HeuristicasPart15Omits();
    FromItemsGetAppend(HeuristicasPart0 + HeuristicasPart1 + HeuristicasPart2 + HeuristicasPart3 + HeuristicasPart4 + HeuristicasPart5 + HeuristicasPart6 + HeuristicasPart7 + HeuristicasPart8 + HeuristicasPart9 + HeuristicasPart10 + HeuristicasPart11 + HeuristicasPart12 + HeuristicasPart13 + HeuristicasPart14, HeuristicasPart15, "professores de educação especial");
  }

  /** "professores de educação especial", written twice, maps to its column once. */
  lemma ProfessoresEducacaoEspecialTerm()
    ensures Get(Heuristicas, "professores de educação especial") == Some("docentes_educacao_especial")
  {
    ProfessoresEducacaoEspecialTermIn15();
  }

  lemma EscolasEducacaoEspecialTermIn10()
    ensures Get(FromItems(HeuristicasPart0 + HeuristicasPart1 + HeuristicasPart2 + HeuristicasPart3 + HeuristicasPart4 + HeuristicasPart5 + HeuristicasPart6 + HeuristicasPart7 + HeuristicasPart8 + HeuristicasPart9 + HeuristicasPart10), "escolas de educação especial") == Some("escolas_educacao_especial")
  {
    assert HeuristicasPart10[1] == ("escolas de educação especial", "escolas_educacao_especial");
    forall j | 1 < j < |HeuristicasPart10| ensures HeuristicasPart10[j].0 != "escolas de educação especial" {
      assert j in {2, 3, 4, 5, 6, 7, 8, 9};
    }
    FromItemsLastWinsIn(HeuristicasPart0 + HeuristicasPart1 + HeuristicasPart2 + HeuristicasPart3 + HeuristicasPart4 + HeuristicasPart5 + HeuristicasPart6 + HeuristicasPart7 + HeuristicasPart8 + HeuristicasPart9, HeuristicasPart10, 1);
  }

  lemma EscolasEducacaoEspecialTermIn14()
    ensures Get(FromItems(HeuristicasPart0 + HeuristicasPart1 + HeuristicasPart2 + HeuristicasPart3 + HeuristicasPart4 + HeuristicasPart5 + HeuristicasPart6 + HeuristicasPart7 + HeuristicasPart8 + HeuristicasPart9 + HeuristicasPart10 + HeuristicasPart11 + HeuristicasPart12 + HeuristicasPart13 + HeuristicasPart14), "escolas de educação especial") == Some("escolas_educacao_especial")
  {
    EscolasEducacaoEspecialTermIn10();
    HeuristicasPart11Omits();
    FromItemsGetAppend(HeuristicasPart0 + HeuristicasPart1 + HeuristicasPart2 + HeuristicasPart3 + HeuristicasPart4 + HeuristicasPart5 + HeuristicasPart6 + HeuristicasPart7 + HeuristicasPart8 + HeuristicasPart9 + HeuristicasPart10, HeuristicasPart11, "escolas de educação especial");
    HeuristicasPart12Omits();
    FromItemsGetAppend(HeuristicasPart0 + HeuristicasPart1 + HeuristicasPart2 + HeuristicasPart3 + HeuristicasPart4 + HeuristicasPart5 + HeuristicasPart6 + HeuristicasPart7 + HeuristicasPart8 + HeuristicasPart9 + HeuristicasPart10 + HeuristicasPart11, HeuristicasPart12, "escolas de educação especial");
    HeuristicasPart13Omits();
    FromItemsGetAppend(HeuristicasPart0 + HeuristicasPart1 + HeuristicasPart2 + HeuristicasPart3 + HeuristicasPart4 + HeuristicasPart5 + HeuristicasPart6 + HeuristicasPart7 + HeuristicasPart8 + HeuristicasPart9 + HeuristicasPart10 + HeuristicasPart11 + HeuristicasPart12, HeuristicasPart13, "escolas de educação especial");
    HeuristicasPart14Omits();
    FromItemsGetAppend(HeuristicasPart0 + HeuristicasPart1 + HeuristicasPart2 + HeuristicasPart3 + HeuristicasPart4 + HeuristicasPart5 + HeuristicasPart6 + HeuristicasPart7 + HeuristicasPart8 + HeuristicasPart9 + HeuristicasPart10 + HeuristicasPart11 + HeuristicasPart12 + HeuristicasPart13, HeuristicasPart14, "escolas de educação especial");
  }

  lemma EscolasEducacaoEspecialTermIn15()
    ensures Get(FromItems(HeuristicasPart0 + HeuristicasPart1 + HeuristicasPart2 + HeuristicasPart3 + HeuristicasPart4 + HeuristicasPart5 + HeuristicasPart6 + HeuristicasPart7 + HeuristicasPart8 + HeuristicasPart9 + HeuristicasPart10 + HeuristicasPart11 + HeuristicasPart12 + HeuristicasPart13 + HeuristicasPart14 + HeuristicasPart15), "escolas de educação especial") == Some("escolas_educacao_especial")
  {
    EscolasEducacaoEspecialTermIn14();
    HeuristicasPart15Omits();
    FromItemsGetAppend(HeuristicasPart0 + HeuristicasPart1 + HeuristicasPart2 + HeuristicasPart3 + HeuristicasPart4 + HeuristicasPart5 + HeuristicasPart6 + HeuristicasPart7 + HeuristicasPart8 + HeuristicasPart9 + HeuristicasPart10 + HeuristicasPart11 + HeuristicasPart12 + HeuristicasPart13 + HeuristicasPart14, HeuristicasPart15, "escolas de educação especial");
  }

  /** "escolas de educação especial", written twice, maps to its column once. */
  lemma EscolasEducacaoEspecialTerm()
    ensures Get(Heuristicas, "escolas de educação especial") == Some("escolas_educacao_especial")
  {
    EscolasEducacaoEspecialTermIn15();
  }

  /** The literal writes a search term twice, so the dict is smaller. */
  lemma HeuristicasDuplicatesCollapse()
    ensures |Heuristicas| < |HeuristicasLiteral|
  {
    assert HeuristicasLiteral[84] == HeuristicasPart8[4];
    assert HeuristicasLiteral[85] == HeuristicasPart8[5];
    FromItemsShrinks(HeuristicasLiteral, 84, 85);
  }

  /** `METRICAS_VALIDAS["matriculas_eja"]` is the second label written for it. */
  lemma MetricasDuplicateLastWins()
    ensures MetricasValidas["matriculas_eja"] == "Matrículas - Cursos EJA"
    ensures MetricasValidas["matriculas_eja"] != "Matrículas - EJA"
  {
  }

  // ---------------------------------------------------------------------
  // THEME_KEYWORDS
  // ---------------------------------------------------------------------

  /** Whatever the term table, its topics are written once each, so
      THEME_KEYWORDS is its literal. */
  lemma ThemeKeywordsOfUnique(h: Dict<string, string>)
    ensures FromItems(ThemeKeywordsOf(h)) == ThemeKeywordsOf(h)
  {
    var t := ThemeKeywordsOf(h);
    assert Keys(t) == TemasValidos;
    FromItemsOfUnique(t);
  }

  /** Whatever the term table, the topics are TEMAS_VALIDOS in order, each
      holds the patterns of the terms its filter keeps, and the comparative
      topic holds the comparative patterns unchanged. */
  lemma ThemeKeywordsOfShape(h: Dict<string, string>)
    ensures Keys(FromItems(ThemeKeywordsOf(h))) == TemasValidos
    ensures Get(FromItems(ThemeKeywordsOf(h)), "populacao") == Some(PatternsWhere(h, IsPopulacaoColumn))
    ensures Get(FromItems(ThemeKeywordsOf(h)), "economia") == Some(PatternsWhere(h, IsEconomiaColumn))
    ensures Get(FromItems(ThemeKeywordsOf(h)), "educacao") == Some(PatternsWhere(h, IsEducacaoColumn))
    ensures Get(FromItems(ThemeKeywordsOf(h)), "tecnica") == Some(PatternsWhere(h, IsTecnicaColumn))
    ensures Get(FromItems(ThemeKeywordsOf(h)), "comparative") == Some(ComparativePatterns)
  {
    ThemeKeywordsOfUnique(h);
    ThemeKeywordsOfGets(h);
  }

  /** The literal names TEMAS_VALIDOS in order, and each topic holds what
      it is written with. */
  lemma ThemeKeywordsOfGets(h: Dict<string, string>)
    ensures Keys(ThemeKeywordsOf(h)) == TemasValidos
    ensures var t := ThemeKeywordsOf(h);
            Get(t, "populacao") == Some(PatternsWhere(h, IsPopulacaoColumn))
            && Get(t, "economia") == Some(PatternsWhere(h, IsEconomiaColumn))
            && Get(t, "educacao") == Some(PatternsWhere(h, IsEducacaoColumn))
            && Get(t, "tecnica") == Some(PatternsWhere(h, IsTecnicaColumn))
            && Get(t, "comparative") == Some(ComparativePatterns)
  {
    var t := ThemeKeywordsOf(h);
    assert Keys(t) == TemasValidos;
    assert UniqueKeys(t);
    GetUnique(t, 0);
    GetUnique(t, 1);
    GetUnique(t, 2);
    GetUnique(t, 3);
    GetUnique(t, 4);
  }

  /** TEMAS_VALIDOS lists the THEME_KEYWORDS topics in their order, and the
      comparative topic holds the comparative patterns unchanged. */
  lemma ThemeKeywordsShape()
    ensures Keys(ThemeKeywords) == TemasValidos
    ensures Get(ThemeKeywords, "comparative") == Some(ComparativePatterns)
  {
    ThemeKeywordsOfShape(Heuristicas);
  }

  /** The population and economy topics hold exactly the whole-word patterns
      of the search terms mapped to their columns. */
  lemma ThemeKeywordsFromHeuristicas()
    ensures Get(ThemeKeywords, "populacao").Some?
    ensures Get(ThemeKeywords, "economia").Some?
    ensures forall p :: p in Get(ThemeKeywords, "populacao").value <==>
      exists i :: 0 <= i < |Heuristicas| && IsPopulacaoColumn(Heuristicas[i].1) && p == TermPattern(Heuristicas[i].0)
    ensures forall p :: p in Get(ThemeKeywords, "economia").value <==>
      exists i :: 0 <= i < |Heuristicas| && IsEconomiaColumn(Heuristicas[i].1) && p == TermPattern(Heuristicas[i].0)
  {
    ThemeKeywordsOfShape(Heuristicas);
  }

  /** In any term table, a term mapped to `matriculas_eja` is an education
      keyword and also a technical-education keyword: the column starts with
      "matriculas_" and is itself one of the technical prefixes. */
  lemma MatriculasEjaInTwoThemesOf(h: Dict<string, string>, term: string)
    requires Get(h, term) == Some("matriculas_eja")
    ensures TermPattern(term) in PatternsWhere(h, IsEducacaoColumn)
    ensures TermPattern(term) in PatternsWhere(h, IsTecnicaColumn)
  {
    var k := IndexOf(h, term);
    assert h[k] == (term, "matriculas_eja");
    assert StartsWith("matriculas_eja", EducacaoPrefixes[0]);
    assert StartsWith("matriculas_eja", TecnicaPrefixes[11]);
  }

  /** So "matrículas eja" has its pattern in both the "educacao" and the
      "tecnica" lists of THEME_KEYWORDS. */
  lemma MatriculasEjaInTwoThemes()
    ensures Get(ThemeKeywords, "educacao").Some? && Get(ThemeKeywords, "tecnica").Some?
    ensures TermPattern("matrículas eja") in Get(ThemeKeywords, "educacao").value
    ensures TermPattern("matrículas eja") in Get(ThemeKeywords, "tecnica").value
  {
    ThemeKeywordsOfShape(Heuristicas);
    MatriculasEjaTerm();
    MatriculasEjaInTwoThemesOf(Heuristicas, "matrículas eja");
  }
}
