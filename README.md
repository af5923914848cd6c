# Query interpretation of the municipal-data chatbot, in Dafny

This project models the query-interpretation layer of a chatbot that answers questions about
Brazilian municipalities, together with the small string, table and ETL transforms around it.
The project proves properties of that model.

- **Normalisation and lookup** (`Parser`):
  - `normalizar`: lowercase, NFKD-fold to ASCII, strip;
  - the `nome`/`uf` extractors;
  - the explicit whole-word/fuzzy scan over a name → record index, with its in-loop dedup and cap.
- **State detection** (`StateSearch`, `Geo`, `UfMatcher`): a first-match search over the ordered
  27-state synonym table, in the `geo.py` copy (shared table) and the `uf_matcher.py` copy (local
  table, `normalizar` without strip).
- **Configuration tables** (`Dicionarios`):
  - `METRICAS_VALIDAS`, `HEURISTICAS`, `COMPARATIVE_PATTERNS`, `TEMAS_VALIDOS` and `ESTADOS`, as
    their literals;
  - duplicate literal keys collapse (last one wins);
  - `THEME_KEYWORDS` is derived by filtering `HEURISTICAS`.
- **City resolution cascade** (`SemanticCity`), as imperative methods:
  - the index load;
  - explicit extraction with the ≥ 2 short-circuit;
  - the comparative flag and state narrowing;
  - the fuzzy, local-embedding and remote stages;
  - grouping by normalised name, then the IBGE-code dedup with its cap.
- **Topic and metric classification and routing** (`SemanticRouter`, `SemanticMetric`,
  `Interpreter`):
  - the blank and comparative short-circuits;
  - the defensive parse of the language model's answer: fence stripping, then JSON, then the regex
    fallback;
  - the whitelists and the fixed fallback pairs;
  - the topic → agent table.
- **Presentation helpers**:
  - `Charts`: the chart-type decision table and its dispatch;
  - `RadarChart`: the radar `valores` padding, done in place on a class, with its indicators and
    series;
  - `LlmUtils`: the records → pipe table;
  - `Formatters`: agent display names and the context/sources pair.
- **ETL** (`JsonToCsv`, `SidraConsulta`, `SidraCorrecao`, `SidraCsv`):
  - `parse_city_key` and the seven-field rows;
  - the SIDRA retry loop, per-municipality collection and the skip/stop rules of `run`, for both
    scraper copies;
  - name correction, grouping by state with `setdefault`, and the sorted output;
  - the 44-column flattening with integer coercion.

Python data is modelled as follows:
- A dict keeps insertion order: it is a sequence of key/value pairs (`PyDict.Dict`).
- Assignment replaces in place or appends.
- A dict literal or comprehension is `FromItems` of its items, so the last duplicate wins.
- JSON values are `PyValue.Value`.
- Exceptions become `Result` failures.

Each language model, fuzzy scorer, embedding model, HTTP response and JSON decoder is a parameter:
a function or a datatype of its outcomes. The model then states what the code does with any answer
it gets.

Shared modules:
- `PyText`: `str.lower`, NFKD folding, `strip`, `in`, `\b…\b` whole-word search, `replace`,
  `re.escape`, `join`, `title` and the order `<` of strings.
- `PyDict`: insertion-ordered dicts.
- `PyValue`: JSON values, `dict.get`, `str(int)`, and Python's `==` and `>` between values.
- `PyList`: slicing.
- `Wrappers`: `Option` and `Result`.

## Model

| member | source | states |
|---|---|---|
| Parser.Normalizar | backend/utils/parser.py:9-16 | the result is ASCII and has no upper-case letter |
| Parser.NormalizarIsStripped | backend/utils/parser.py:11-16 | the result has no leading or trailing whitespace |
| Parser.NormalizarIdempotent | backend/utils/parser.py:10-16 | `normalizar(normalizar(s)) == normalizar(s)`, which the explicit scan relies on when it re-normalises normalised text |
| Parser.NormalizarOfAscii | backend/utils/parser.py:11-16 | on ASCII text `normalizar` is `strip(lower(s))` |
| Parser.GetAttr | backend/utils/parser.py:23 | `.get` succeeds exactly on dicts; any other element raises |
| Parser.ExtrairNomeUf | backend/utils/parser.py:19-26 | a non-empty list gives the first element's `nome`/`uf` (raising when that element is not a dict); a dict gives its own; anything else, including `[]`, gives (None, None) |
| Parser.NomeOf | backend/utils/parser.py:38 | one element contributes its `nome` exactly when it has the key, and a dict never raises |
| Parser.Nomes | backend/utils/parser.py:38 | a list of dicts never raises, and there are at most as many names as elements |
| Parser.NomesDe | backend/utils/parser.py:38 | every name in the result is the `nome` of an element that has one |
| Parser.NomesAllNamed | backend/utils/parser.py:38 | when every element has `nome`, the names are exactly those values, in order |
| PyValue.Gt | backend/utils/parser.py:40 | `>` raises whenever `None` or a dict is on either side |
| PyValue.GtMixedRaises | backend/utils/parser.py:40 | `>` between a number and a string raises, in both directions |
| PyValue.GtStrings | backend/utils/parser.py:40 | between strings `>` never raises and is a strict total order: never both ways, one way for distinct strings, not for equal ones |
| Parser.MaxIndex | backend/utils/parser.py:40 | `max` picks a position of the list; a single element is picked without any comparison |
| Parser.MaxIndexNumbers | backend/utils/parser.py:40 | among numbers (booleans as 0/1) `max` succeeds and picks the first position of largest value |
| Parser.MaxIndexStrings | backend/utils/parser.py:40 | among strings `max` succeeds and picks the first position of the string that comes last in code-point order |
| Parser.MaxIndexUnordered | backend/utils/parser.py:40 | with two or more keys, a `None` or dict key anywhere makes `max` raise |
| Parser.MaxIndexMixed | backend/utils/parser.py:40 | numbers and strings together make `max` raise |
| Parser.Populacoes | backend/utils/parser.py:40 | each element's key is `c.get("populacao", 0)` |
| Parser.ExtrairCidadesUf | backend/utils/parser.py:29-41 | a dict gives a one-name list and its `uf`; a list of dicts succeeds exactly when the names and `max` by `populacao` do, and then gives the names in order and the `uf` of the element `max` picks; a list with a non-dict gives None for `uf`; anything else gives ([], None) |
| Parser.ExtrairCidadesUfMaisPopulosa | backend/utils/parser.py:29-41 | with numeric populations the `uf` is that of the first most populous city |
| Parser.ExtrairCidadesUfTextPopulations | backend/utils/parser.py:29-41 | populations given as text are compared as strings and do not raise |
| Parser.ExtractorsAgree | backend/utils/parser.py:19-41 | for one record, both extractors agree on the name and the state, whether it is given bare or as a one-element list |
| Parser.ExtrairCidadesExplicitamente | backend/utils/parser.py:44-60 | the loop with its membership test and `break` returns exactly the reference scan `Scan` |
| Parser.Hits | backend/utils/parser.py:49-55 | every hit is the record of an index entry whose normalised name occurs as a whole word or scores ≥ 90 |
| Parser.DedupFrom | backend/utils/parser.py:56-57 | records already found are skipped and none is kept twice |
| Parser.Take | backend/utils/parser.py:58-59 | the cap keeps a prefix of at most `max_cidades` elements (none for `max_cidades ≤ 0`) and keeps it duplicate-free |
| Parser.ScanIsReference | backend/utils/parser.py:49-59 | scanning in index order with an in-loop cap equals dedup-then-take over all hits |
| Parser.ScanWithCap | backend/utils/parser.py:44-60 | with `max_cidades ≥ 1`: at most `max_cidades` records, no record twice, and each one a hit, in index order |
| Parser.ScanWithoutCap | backend/utils/parser.py:56-59 | with `max_cidades ≤ 0` the check after the first append stops the scan: at most the first entry's record |
| StateSearch.AnyTermMatchesIff | backend/utils/geo.py:23-24 | a state matches exactly when one of its terms occurs as a whole word |
| StateSearch.FirstMatch | backend/utils/geo.py:22-29 | None exactly when no term of any state matches; otherwise the code of the first state, in table order, with a matching term |
| StateSearch.FirstMatchAtMost | backend/utils/geo.py:22-26 | when state k matches, the result is a state at position ≤ k |
| StateSearch.FirstMatchExactly | backend/utils/geo.py:22-26 | the first matching state in table order is the result |
| StateSearch.FirstMatchBefore | backend/utils/geo.py:22-26 | a code listed only after a matching state can never be the result |
| StateSearch.MatoGrossoInsideMatoGrossoDoSul | backend/config/dicionarios.py:314-315 | text holding the whole word "mato grosso do sul" also holds the whole word "mato grosso" |
| Geo.DetectarUf | backend/utils/geo.py:12-29 | the result is a key of `ESTADOS`, namely the first state with a whole-word term in `normalizar(texto)`, and None exactly when nothing matches |
| Geo.DetectarUfIgnoresCaseAndAccents | backend/utils/geo.py:17 | `detectar_uf(normalizar(t)) == detectar_uf(t)` |
| Geo.GauchoNeverMatches | backend/config/dicionarios.py:324 | the term "gaúcho" never occurs in normalised text |
| Geo.MatoGrossoBeforeMatoGrossoDoSul | backend/config/dicionarios.py:303-331 | MT is at position 10 and MS at 11, with MS nowhere earlier |
| Geo.MatoGrossoSearch | backend/config/dicionarios.py:314-315 | over this table, text holding "mato grosso" finds a state other than MS, and finds MT when no earlier state matched |
| Geo.MatoGrossoDoSulIsMT | backend/utils/geo.py:22-26 | "mato grosso do sul" never yields MS, and yields MT unless an earlier state matched |
| Geo.ParaSearch | backend/config/dicionarios.py:317 | over this table, text holding "para" always finds some state, namely PA unless an earlier state matched |
| Geo.ParaIsPA | backend/utils/geo.py:22-26 | a question with the word "para" yields PA unless an earlier state matched |
| UfMatcher.EstadosShape | backend/core/router/uf_matcher.py:10-38 | exactly 27 distinct state codes, each with at least two terms |
| UfMatcher.Normalizar | backend/core/router/uf_matcher.py:40-42 | the local `normalizar` gives ASCII without upper-case letters, without stripping |
| UfMatcher.NormalizarIdempotent | backend/core/router/uf_matcher.py:40-42 | the local `normalizar` is idempotent |
| UfMatcher.DetectarUf | backend/core/router/uf_matcher.py:44-57 | the result is a key of the local table, namely the first state with a whole-word term, and None exactly when nothing matches |
| UfMatcher.GauchoIsDead | backend/core/router/uf_matcher.py:31 | RS matches exactly when one of its other three terms does: "gaúcho" is unreachable |
| UfMatcher.SearchWithMatoGrosso | backend/core/router/uf_matcher.py:20-22 | over the local table, "mato grosso" never finds MS, and finds MT unless an earlier state matched |
| UfMatcher.MatoGrossoDoSulIsMT | backend/core/router/uf_matcher.py:50-54 | "mato grosso do sul" resolves to MT, never to MS, by table order |
| Dicionarios.EstadosShape | backend/config/dicionarios.py:303-331 | `ESTADOS` has exactly 27 distinct keys, each with at least two synonyms |
| Dicionarios.PatternsWhere | backend/config/dicionarios.py:251-296 | a topic's list holds exactly `\b<re.escape(term)>\b` for the `HEURISTICAS` terms whose column passes the topic's filter, with no more entries than terms |
| Dicionarios.ThemeKeywordsOfShape | backend/config/dicionarios.py:251-298 | the keys of `THEME_KEYWORDS` are `TEMAS_VALIDOS`, in order; each topic's list is its filter over the heuristics, and "comparative" is `COMPARATIVE_PATTERNS` |
| Dicionarios.ThemeKeywordsShape | backend/config/dicionarios.py:251-301 | `TEMAS_VALIDOS` is the key sequence of `THEME_KEYWORDS`, and its "comparative" list equals `COMPARATIVE_PATTERNS` |
| Dicionarios.ThemeKeywordsFromHeuristicas | backend/config/dicionarios.py:252-261 | the "populacao" and "economia" lists hold exactly the escaped patterns of the terms mapped to `populacao_total`/`ano_populacao` and `pib_per_capita`/`ano_pib` |
| Dicionarios.MatriculasEjaInTwoThemesOf | backend/config/dicionarios.py:262-296 | a term mapped to `matriculas_eja` lands in both the "educacao" and the "tecnica" list |
| Dicionarios.MatriculasEjaInTwoThemes | backend/config/dicionarios.py:262-296 | the pattern of "matrículas eja" is in both the "educacao" and the "tecnica" list |
| Dicionarios.LabelledHasLabel | backend/config/dicionarios.py:12-70 | a labelled column is a `METRICAS_VALIDAS` key or one of the year columns |
| Dicionarios.YearColumnsUnlabelled | backend/config/dicionarios.py:12-70 | `ano_populacao`, `ano_pib` and `ano_censo` are not `METRICAS_VALIDAS` keys |
| Dicionarios.HeuristicasColumnsHaveLabels | backend/config/dicionarios.py:84-248 | every `HEURISTICAS` column is a `METRICAS_VALIDAS` key, except the three year columns |
| Dicionarios.MatriculasEjaTerm | backend/config/dicionarios.py:133 | `HEURISTICAS["matrículas eja"] == "matriculas_eja"` |
| Dicionarios.ProfessoresEducacaoEspecialTerm | backend/config/dicionarios.py:174-175 | the duplicated key "professores de educação especial" maps to `docentes_educacao_especial` |
| Dicionarios.EscolasEducacaoEspecialTerm | backend/config/dicionarios.py:191-192 | the duplicated key "escolas de educação especial" maps to `escolas_educacao_especial` |
| Dicionarios.HeuristicasDuplicatesCollapse | backend/config/dicionarios.py:84-248 | the dict has fewer entries than the literal has lines |
| Dicionarios.MetricasDuplicateLastWins | backend/config/dicionarios.py:20-69 | `METRICAS_VALIDAS["matriculas_eja"]` is the later "Matrículas - Cursos EJA", not "Matrículas - EJA" |
| SemanticCity.RowItems | backend/core/router/semantic_city.py:48-54 | each row contributes `normalizar(cidade)` → {codigo_ibge, nome, uf} |
| SemanticCity.RowIndexStep | backend/core/router/semantic_city.py:48-54 | one more row is one more dict assignment |
| SemanticCity.CarregarCidades | backend/core/router/semantic_city.py:47-57 | the loop builds exactly the index `RowIndex` |
| SemanticCity.RowIndexShape | backend/core/router/semantic_city.py:47-55 | the index has unique keys, each the normalised name of its record, and size ≤ the row count; every row's normalised name is a key |
| SemanticCity.LastRowWins | backend/core/router/semantic_city.py:49-54 | a row not followed by one with the same normalised name is the record stored |
| SemanticCity.CollidingRowsShrink | backend/core/router/semantic_city.py:49-54 | two rows with the same normalised name make the index smaller than the row count |
| SemanticCity.Narrow | backend/core/router/semantic_city.py:93-96 | narrowing keeps exactly the entries whose `uf` equals the detected state, ignoring case |
| SemanticCity.EstreitarPorUf | backend/core/router/semantic_city.py:88-96 | the comparative flag is the raw lowercase check against the 8 markers; the index is narrowed only when a state is detected and the flag is false |
| SemanticCity.LocalStage | backend/core/router/semantic_city.py:111-120 | the local stage adds the top names scoring at least the threshold, and only names of the current index |
| SemanticCity.RemoteHitsAreNames | backend/core/router/semantic_city.py:130-133 | the remote stage proposes only names of the current index |
| SemanticCity.RemoteStage | backend/core/router/semantic_city.py:130-133 | the remote loop adds exactly the top names scoring ≥ 0.45 |
| SemanticCity.ColetarCandidatos | backend/core/router/semantic_city.py:98-135 | the stages collect exactly `Candidatos`: fuzzy ≥ 85 and local always, remote only when both found nothing, and a failing stage adds nothing |
| SemanticCity.CandidatosFromIndex | backend/core/router/semantic_city.py:98-133 | apart from fuzzy hits, every candidate is a name of the current index |
| SemanticCity.Agrupar | backend/core/router/semantic_city.py:144-152 | the grouping loop visits each candidate once, in some order, and builds the groups of that order |
| SemanticCity.AgrupadasShape | backend/core/router/semantic_city.py:144-152 | the groups have unique keys, are keyed by the normalised record name, hold only index records, and number at most the candidates |
| SemanticCity.AgrupadasKeepFirst | backend/core/router/semantic_city.py:150-152 | the population tie-break compares 0 with 0, so a group keeps its first-seen record |
| SemanticCity.AgrupadasCover | backend/core/router/semantic_city.py:145-152 | every candidate found in the index has its group |
| SemanticCity.AgrupadasEmptyIff | backend/core/router/semantic_city.py:145-148 | there are no groups exactly when no candidate is in the index |
| SemanticCity.Codigos | backend/core/router/semantic_city.py:155-156 | the code set holds exactly the codes of the listed cities |
| SemanticCity.Finalizar | backend/core/router/semantic_city.py:154-159 | the final loop with its `break` computes `Final` |
| SemanticCity.FinalShape | backend/core/router/semantic_city.py:154-159 | no repeated `codigo_ibge`; at most `max_cidades` entries (one for `max_cidades ≤ 0`); only grouped records; below the cap every group's code is present |
| SemanticCity.FinalExtends | backend/core/router/semantic_city.py:154-159 | the loop only appends |
| SemanticCity.Resolver | backend/core/router/semantic_city.py:137-160 | the result has distinct codes, respects the cap, holds only index records, and is `[]` exactly when no candidate is in the index |
| SemanticCity.DetectarCidades | backend/core/router/semantic_city.py:79-162 | ≥ 2 explicit hits return their first `max_cidades` and skip the other stages; otherwise the candidates of the narrowed index are visited once each, grouped by name, and deduplicated by code up to the cap, so that below the cap every group's code is there; the result has distinct codes, only index records, and is `[]` exactly when no candidate is indexed |
| SemanticRouter.LimparMarcacoes | backend/core/router/semantic_router.py:13-14 | the result is stripped and holds no code fence |
| SemanticRouter.FenceRemovalLeavesNoFence | backend/core/router/semantic_router.py:14 | removing every "```" leaves none |
| SemanticRouter.LimparMarcacoesIdempotent | backend/core/router/semantic_router.py:13-14 | cleaning twice is cleaning once |
| SemanticRouter.LimparMarcacoesOfPlain | backend/core/router/semantic_router.py:13-14 | text without fences is only stripped |
| SemanticRouter.AlgumCasaIff | backend/core/router/semantic_router.py:23 | `any(...)` holds exactly when one pattern matches |
| SemanticRouter.HeuristicaComparativaIff | backend/core/router/semantic_router.py:16-23 | the heuristic holds exactly when one of its 12 patterns matches the lowercased question |
| SemanticRouter.HeuristicaIgnoresCase | backend/core/router/semantic_router.py:23 | the heuristic does not depend on case |
| SemanticRouter.EnumeracaoExample | backend/core/router/semantic_router.py:21 | "de a e b" matches the enumeration pattern |
| SemanticRouter.TemaAt | backend/core/router/semantic_router.py:43 | a regex capture is a non-empty run of word characters |
| SemanticRouter.TemaPorRegexDesdeDe | backend/core/router/semantic_router.py:43-44 | the search finds nothing exactly when no position matches; otherwise it finds the leftmost match |
| SemanticRouter.PrimeiroTema | backend/core/router/semantic_router.py:43 | the first matching position gives the capture |
| SemanticRouter.RegexExample | backend/core/router/semantic_router.py:43-45 | `"tema": "Sus"` captures "Sus" |
| SemanticRouter.RegexInsideWord | backend/core/router/semantic_router.py:43 | the optional quotes let "tema" match inside "sistema": "sistema:x" captures "x" |
| SemanticRouter.TemaDaResposta | backend/core/router/semantic_router.py:40-60 | whatever the model answered, the parsed topic is "llm" or a valid topic |
| SemanticRouter.ClassificarTema | backend/core/router/semantic_router.py:25-60 | a blank question gives "llm"; a comparative one gives "dashboard"; any result is "llm", "dashboard" or a valid topic |
| SemanticRouter.ClassificarTemaSemLlm | backend/core/router/semantic_router.py:26-32 | a blank or comparative question never consults the language model |
| SemanticMetric.MetricasLabelsNonEmpty | backend/core/router/semantic_metric.py:20-59 | every label of the local `METRICAS_VALIDAS` is non-empty |
| SemanticMetric.HeuristicasLabelled | backend/core/router/semantic_metric.py:20-78 | all 15 heuristic columns are non-empty `METRICAS_VALIDAS` keys |
| SemanticMetric.HeuristicaDesdeNone | backend/core/router/semantic_metric.py:100-105 | the scan returns None exactly when no remaining term is a substring |
| SemanticMetric.HeuristicaDesdeIsFirst | backend/core/router/semantic_metric.py:100-104 | a hit is the column of the first matching term, labelled by `.get(coluna, coluna)` |
| SemanticMetric.HeuristicaDesdeAt | backend/core/router/semantic_metric.py:100-104 | the scan skips non-matching terms |
| SemanticMetric.AplicarHeuristicaIsFirst | backend/core/router/semantic_metric.py:98-105 | None exactly when no term is a substring of the lowercased question; otherwise the column of the first such term in insertion order |
| SemanticMetric.AplicarHeuristicaLabelled | backend/core/router/semantic_metric.py:98-105 | a heuristic hit is a `METRICAS_VALIDAS` column with its non-empty label |
| SemanticMetric.HeuristicasAt4 | backend/core/router/semantic_metric.py:67 | "matrículas" is the fifth term, mapped to `matriculas_fundamental` |
| SemanticMetric.MatriculasBeforeEnsinoMedio | backend/core/router/semantic_metric.py:67-68 | a question with both "matrículas" and "ensino médio" maps to `matriculas_fundamental` |
| SemanticMetric.SkipNonQuote | backend/core/router/semantic_metric.py:124 | `[^"]*` stops at the first quote |
| SemanticMetric.ColunaAt | backend/core/router/semantic_metric.py:124 | the "coluna" part of the regex captures a non-empty `[\w_]+` |
| SemanticMetric.LabelAt | backend/core/router/semantic_metric.py:124 | the "label" part captures a non-empty run without quotes |
| SemanticMetric.MetricaAtShape | backend/core/router/semantic_metric.py:124 | a match has "coluna" at its start and a "label" after it |
| SemanticMetric.MetricaPorRegexShape | backend/core/router/semantic_metric.py:124-129 | a regex hit has a word-character column and a quote-free label, with "coluna" before "label" |
| SemanticMetric.LabelBeforeColunaMisses | backend/core/router/semantic_metric.py:124 | a "label" only before "coluna" is not found |
| SemanticMetric.MetricaDaResposta | backend/core/router/semantic_metric.py:121-145 | after parsing: one of the two fixed fallback pairs, or a non-empty `METRICAS_VALIDAS` column with a non-empty label |
| SemanticMetric.MetricaViaLlm | backend/core/router/semantic_metric.py:114-145 | same, and a failing model call gives the "(default)" pair |
| SemanticMetric.ClassificarMetrica | backend/core/router/semantic_metric.py:107-145 | a heuristic hit returns at once without the language model; otherwise the model path; any non-empty column is a `METRICAS_VALIDAS` key |
| Interpreter.Despachar | backend/core/router/interpreter.py:41-47 | a key of `AGENTS` gives its agent with the same topic; anything else gives InstitucionalAgent with "institucional" |
| Interpreter.InterpretarPergunta | backend/core/router/interpreter.py:21-47 | a blank question gives (InstitucionalAgent, "institucional", []); a classifier failure routes as "desconhecido"; a detection failure gives no cities; detected cities pass through unchanged |
| Interpreter.DespacharClosed | backend/core/router/interpreter.py:41-47 | every route is one of the four table topics or "institucional", and "institucional" goes with InstitucionalAgent |
| Interpreter.RouteIgnoresCities | backend/core/router/interpreter.py:41-47 | the agent and topic never depend on the detected cities |
| Interpreter.DespacharExamples | backend/core/router/interpreter.py:14-19 | "dashboard" → ComparativeAgent; "tecnica", "comparative", "llm" and "desconhecido" → institucional |
| Interpreter.InterpretarComClassificador | backend/core/router/interpreter.py:29-47 | with the real classifier, a comparative question reaches ComparativeAgent, and an "llm" topic reaches InstitucionalAgent |
| Charts.TipoPorContagemIff | backend/components/charts/charts_builder.py:18-26 | bar iff 1 metric and ≥ 2 cities; radar iff ≥ 2 metrics and ≥ 2 cities; scatter iff 2 metrics and ≤ 1 city; gauge iff 1 and 1; other otherwise |
| Charts.InferChartType | backend/components/charts/charts_builder.py:12-26 | missing keys act as empty lists; the type is decided by the two counts (None where `len` would raise) |
| Charts.NoMetricsIsOther | backend/components/charts/charts_builder.py:13-26 | no `metricas` key gives "other" |
| Charts.RenderChart | backend/components/charts/charts_builder.py:29-41 | exactly the renderer of the inferred type is chosen |
| RadarChart.Zeros | backend/components/charts/radar_chart.py:31 | `[0] * n` has length n and is all zeros |
| RadarChart.PaddedCovers | backend/components/charts/radar_chart.py:29-31 | after padding, every city has a vector of `len(metricas)` values |
| RadarChart.PaddedKeepsOthers | backend/components/charts/radar_chart.py:29-31 | entries for keys not in `cidades` are untouched |
| RadarChart.PaddedKeepsGood | backend/components/charts/radar_chart.py:30 | vectors of the right length are unchanged |
| RadarChart.PaddedZeroesBad | backend/components/charts/radar_chart.py:30-31 | missing or wrong-length vectors become all zeros |
| RadarChart.PaddedUnique | backend/components/charts/radar_chart.py:31 | padding keeps keys unique |
| RadarChart.RotuloRadarUnlabelled | backend/components/charts/radar_chart.py:36 | an unlabelled metric's name has the key's length; each "_" becomes " ", uncased characters stay, a letter that starts a word is upper-cased and every other letter lower-cased |
| RadarChart.DadosRadar.constructor | backend/components/charts/radar_chart.py:24-26 | holds `cidades`, `metricas` and `valores` as read from the data |
| RadarChart.DadosRadar.GarantirTamanhos | backend/components/charts/radar_chart.py:29-31 | the in-place loop leaves `valores` as the padded dict, with `cidades` and `metricas` unchanged |
| RadarChart.DadosRadar.Indicadores | backend/components/charts/radar_chart.py:34-38 | one indicator per metric, in order, named by its label |
| RadarChart.DadosRadar.Series | backend/components/charts/radar_chart.py:41-51 | one series per city, in order, with its vector and the colour of its index parity |
| RadarChart.DadosRadar.RenderRadar | backend/components/charts/radar_chart.py:9-72 | pads, then builds one indicator per metric, named by its label, and one series per city, with its name, colour and the city's values when they had one per metric and zeros otherwise; it raises (None) exactly when there are metrics and no city, as `max` of nothing does |
| LlmUtils.Celulas | backend/utils/llm_utils.py:90 | each cell is `str(value)`, or "" for a missing key |
| LlmUtils.Corpo | backend/utils/llm_utils.py:90-93 | one body line per record, the cells joined by " \| ", raising when a record is not a dict |
| LlmUtils.SeparadorLength | backend/utils/llm_utils.py:92 | the separator is one "---" per column joined by " \| ", of length 6n − 3 |
| LlmUtils.Tabela | backend/utils/llm_utils.py:89-95 | the header is the first record's keys; then the separator; then the body lines |
| LlmUtils.FormatarDados | backend/utils/llm_utils.py:74-95 | falsy input gives "Nenhum dado disponível."; a dict with "context" gives that value verbatim; input that is neither dict nor list raises |
| LlmUtils.DictIsOneRowList | backend/utils/llm_utils.py:86-87 | any other dict is formatted as a one-row list |
| LlmUtils.LinhaSemQuebra | backend/utils/llm_utils.py:93 | a row of cells without newlines is one line |
| LlmUtils.TabelaLines | backend/utils/llm_utils.py:91-95 | without newlines in keys and values the table has `len(dados) + 2` lines |
| Formatters.NomeAgenteFormatado | backend/utils/formatters.py:11-19 | a string gives its mapped name or "LLM (Fallback)"; None gives "LLM (Fallback)"; an object gives the name mapped from its class name, or else the class name |
| Formatters.AgentesDespachadosTemNome | backend/utils/formatters.py:2-19 | every agent the router dispatches has a display name, neither its class name nor the fallback |
| Formatters.TecnicaAgentExamples | backend/utils/formatters.py:2-19 | a TecnicaAgent object shows "TecnicaAgent", while the string "TecnicaAgent" shows the fallback |
| Formatters.NenhumExamples | backend/utils/formatters.py:17-18 | None gives "LLM (Fallback)" |
| Formatters.ChaveIsEq | backend/utils/formatters.py:23 | two hashable values are the same set element exactly when Python's `==` holds |
| Formatters.AdicionarConjuntoDe | backend/utils/formatters.py:23 | adding one more element keeps a set what `set` makes of the elements so far |
| Formatters.FontesMeaning | backend/utils/formatters.py:23 | the set is built exactly when no "arquivo" value is a list or dict; then each element is the first of its key, every file's key is there once, and there are no more elements than metadata |
| Formatters.FontesMergesOneAndTrue | backend/utils/formatters.py:23 | `1` and `True` are one element, the first one kept |
| Formatters.FontesListRaises | backend/utils/formatters.py:23 | a list as a file name raises |
| Formatters.Listar | backend/utils/formatters.py:23 | `list(set)` lists every element once |
| Formatters.FormatarContextoParaLlm | backend/utils/formatters.py:21-24 | raises exactly when a file is unhashable; otherwise the documents joined by "\n---\n" ("" for none, each document contained), and the duplicate-free list of what `set` makes of the files |
| JsonToCsv.GrupoUfAt | scraper/core/json_to_csv.py:24 | `\(([A-Z]{2})\)` at one position, with its group |
| JsonToCsv.SemUfFinal | scraper/core/json_to_csv.py:28 | `re.sub(r" \([A-Z]{2}\)$", "")` removes one trailing " (XX)", also before a final newline |
| JsonToCsv.ParseCityKey | scraper/core/json_to_csv.py:18-29 | the state is the first (XX) group, or ""; the name has every suffix removed and then one trailing " (XX)" |
| JsonToCsv.ParseCityKeySemEstado | scraper/core/json_to_csv.py:24-25 | the state is "" exactly when no (XX) group occurs |
| JsonToCsv.PrimeiroGrupoUfAt | scraper/core/json_to_csv.py:24-25 | the state is the leftmost group and has two letters |
| JsonToCsv.ParseCityKeyRoundTrip | scraper/core/json_to_csv.py:18-29 | "name (UF) (População residente estimada)" parses back to (name, UF) |
| JsonToCsv.ParseCityKeyExample | scraper/core/json_to_csv.py:20-21 | the docstring example parses to ("Alta Floresta D'Oeste", "RO") |
| JsonToCsv.Campos | scraper/core/json_to_csv.py:45-55 | each row has exactly the seven field names, in order |
| JsonToCsv.LinhaDeMeaning | scraper/core/json_to_csv.py:40-55 | a row exists when the sub-dicts are dicts; city and state come from the key; a missing `populacao`, `pib_per_capita` or `codigo_ibge` gives None |
| JsonToCsv.Linhas | scraper/core/json_to_csv.py:38-55 | one row per key, in key order, or a failure when some entry raises |
| SidraConsulta.AllDigitsAt | scraper/core/scraper_sidra_ibge.py:57-60 | a string of decimal digits, character by character |
| SidraConsulta.ParseSigned | scraper/core/scraper_sidra_ibge.py:60 | `int()` of a string succeeds only on non-empty text |
| SidraConsulta.SemSublinhado | scraper/core/scraper_sidra_ibge.py:60 | taking the `_` separators out of digits and separators leaves digits, and leaves plain digits as they are |
| SidraConsulta.ParseSignedOfGrouped | scraper/core/scraper_sidra_ibge.py:60 | digits grouped by `_` are read as the digits alone |
| SidraConsulta.ParseSignedSeparator | scraper/core/scraper_sidra_ibge.py:60 | one `_` between two digit strings gives the value of the digits joined |
| SidraConsulta.ParseSignedBadSeparator | scraper/core/scraper_sidra_ibge.py:60 | two `_` in a row, or one at the end, raise |
| SidraConsulta.DigitsOfNatToStr | scraper/core/scraper_sidra_ibge.py:60 | `str(n)` is digits whose value is n |
| SidraConsulta.StrippedOfDigits | scraper/core/scraper_sidra_ibge.py:60 | a signed digit string has no surrounding whitespace |
| SidraConsulta.ParseSignedOfDigits | scraper/core/scraper_sidra_ibge.py:60 | `int()` reads a digit string and its negation |
| SidraConsulta.ParseSignedOfIntToStr | scraper/core/scraper_sidra_ibge.py:60 | `int(str(i)) == i` |
| SidraConsulta.ParseIntOfIntToStr | scraper/core/scraper_sidra_ibge.py:57-60 | `int(str(i)) == i` through the full `int()` model |
| SidraConsulta.TentativaShape | scraper/core/scraper_sidra_ibge.py:48-60 | an attempt succeeds only with status 200 and a row 1 holding V, D3N and D1N; the value is V with "." removed, then `int` |
| SidraConsulta.GetDadoSidra | scraper/core/scraper_sidra_ibge.py:38-66 | at most `tentativas` attempts; success exactly when some attempt succeeds, returning the first successful one; otherwise RuntimeError after all attempts |
| SidraConsulta.Tentar | backend/scraping/scraper_sidra_ibge.py:36-49 | the retry loop, for any attempt outcome: the same first-success or RuntimeError contract |
| SidraConsulta.Respostas | scraper/core/scraper_sidra_ibge.py:76-79 | one `get_dado_sidra` outcome per query, in order |
| SidraConsulta.PrimeiraFalha | scraper/core/scraper_sidra_ibge.py:76-79 | the error of the first failing query, None when none failed |
| SidraConsulta.PrimeiraFalhaEm | scraper/core/scraper_sidra_ibge.py:76-79 | a failure preceded only by successes is the first failure |
| SidraConsulta.Itens | scraper/core/scraper_sidra_ibge.py:80 | one `{valor, ano}` item per query key, in order |
| SidraConsulta.ColetarDadosMunicipio | scraper/core/scraper_sidra_ibge.py:69-85 | the loop computes `Coletar`: the first failure propagates, otherwise the chosen name and {codigo_ibge, one record per query} |
| SidraConsulta.ColetarFim | backend/scraping/scraper_sidra_ibge.py:52-64 | without failure, the record is `codigo_ibge` followed by the query items |
| SidraConsulta.ColetarPasso | backend/scraping/scraper_sidra_ibge.py:55-63 | one more query: a failure propagates; a success appends its item and advances the name rule |
| SidraConsulta.DadosAtePasso | backend/scraping/scraper_sidra_ibge.py:57-60 | each query is one more dict assignment `city_data[chave] = {…}` |
| SidraConsulta.ItensUnicos | scraper/core/scraper_sidra_ibge.py:73-80 | with distinct query keys other than "codigo_ibge", the record has unique keys |
| SidraConsulta.ItensChaves | scraper/core/scraper_sidra_ibge.py:73-80 | the record's keys are "codigo_ibge" then the query keys |
| SidraConsulta.ItensGet | scraper/core/scraper_sidra_ibge.py:73-80 | `codigo_ibge` is stored, and each query key holds its own {valor, ano} |
| SidraConsulta.DadosAteChaves | scraper/core/scraper_sidra_ibge.py:73-80 | the record built by assignments has keys "codigo_ibge" then the query keys |
| SidraConsulta.DadosAteConteudo | scraper/core/scraper_sidra_ibge.py:73-80 | and holds the code and each query's {valor, ano} |
| SidraConsulta.NomeAteCore | scraper/core/scraper_sidra_ibge.py:81-82 | `is None`: the name is the first non-None name, or None when all are None |
| SidraConsulta.NomeAteBackend | backend/scraping/scraper_sidra_ibge.py:61-62 | `if not`: the name is the first truthy name, or else the last name seen |
| SidraConsulta.NomeVazio | backend/scraping/scraper_sidra_ibge.py:61-62 | with names "" then "X", the core copy keeps "" and the backend copy takes "X" |
| SidraConsulta.Run | scraper/core/scraper_sidra_ibge.py:140-162 | the loop computes `RunDesde`: skip collected codes, save or skip each result, stop at the first failure |
| SidraConsulta.RunParaNaFalha | scraper/core/scraper_sidra_ibge.py:160-162 | a failing municipality ends the run: later ones are never collected |
| SidraConsulta.NomesSemDigitosNuncaPulam | scraper/core/scraper_sidra_ibge.py:149 | the skip test is a substring test on `str(codigo)`: saved names without digits never skip a code |
| SidraConsulta.NomeNulo | backend/scraping/scraper_sidra_ibge.py:125-133 | a None name is skipped by the core copy, and saved under "null" by the backend copy |
| SidraCorrecao.InicioEspacos | backend/scraping/scraper_sidra_ibge.py:89 | the `\s*` before the suffix is the maximal whitespace run |
| SidraCorrecao.NomeCorrigidoDeEstimada | backend/scraping/scraper_sidra_ibge.py:89 | "name (População residente estimada)" is corrected to "name" |
| SidraCorrecao.NomeCorrigidoSemSufixo | backend/scraping/scraper_sidra_ibge.py:89 | a stripped name without the suffix is unchanged |
| SidraCorrecao.CasamentoDeNome | backend/scraping/scraper_sidra_ibge.py:95-100 | "city (UF)" matches `^(.*) \((\w{2})\)$` with groups (city, UF) |
| SidraCorrecao.NomeDeCasamento | backend/scraping/scraper_sidra_ibge.py:95-100 | a match is "city (UF)", optionally followed by a final newline that `$` allows |
| PyText.LessIrreflexive | backend/scraping/scraper_sidra_ibge.py:104-105 | the string order of `sorted` is irreflexive |
| PyText.LessTransitive | backend/scraping/scraper_sidra_ibge.py:104-105 | it is transitive |
| PyText.LessTotal | backend/scraping/scraper_sidra_ibge.py:104-105 | it is total on distinct strings |
| SidraCorrecao.Inserir | backend/scraping/scraper_sidra_ibge.py:104-105 | insertion adds exactly one element |
| SidraCorrecao.Ordenar | backend/scraping/scraper_sidra_ibge.py:104-105 | `sorted(d.items())` is a permutation of the items |
| SidraCorrecao.InserirCrescente | backend/scraping/scraper_sidra_ibge.py:104-105 | insertion keeps the items in increasing key order |
| SidraCorrecao.OrdenarCrescente | backend/scraping/scraper_sidra_ibge.py:104-105 | sorting dict items gives strictly increasing keys |
| SidraCorrecao.CrescenteUnico | backend/scraping/scraper_sidra_ibge.py:104-105 | increasing keys are unique |
| SidraCorrecao.OrdenarGet | backend/scraping/scraper_sidra_ibge.py:104-105 | sorting a dict changes no lookup |
| SidraCorrecao.Mapeados | backend/scraping/scraper_sidra_ibge.py:88-90 | each raw item under its corrected name, in order |
| SidraCorrecao.CorrigidosGet | backend/scraping/scraper_sidra_ibge.py:88-90 | when two raw keys collapse to one name, the later one wins |
| SidraCorrecao.Classificados | backend/scraping/scraper_sidra_ibge.py:94-95 | each corrected name with its match, in order |
| SidraCorrecao.UltimoComDe | backend/scraping/scraper_sidra_ibge.py:94-101 | the last entry that matched (city, UF), or None when none did |
| SidraCorrecao.SetdefaultAssign | backend/scraping/scraper_sidra_ibge.py:101 | `setdefault(uf, {})[cidade] = v` is an assignment into the state's (possibly new) city dict |
| SidraCorrecao.SetdefaultGet | backend/scraping/scraper_sidra_ibge.py:101 | afterwards the state is present, and only (uf, cidade) changes value |
| SidraCorrecao.GetPasso | backend/scraping/scraper_sidra_ibge.py:100-101 | one grouping step changes only the matched (city, UF) |
| SidraCorrecao.SetdefaultUnico | backend/scraping/scraper_sidra_ibge.py:101 | grouping keeps state and city keys unique |
| SidraCorrecao.TemPasso | backend/scraping/scraper_sidra_ibge.py:101 | after a step, the states present are the earlier ones plus the matched state |
| SidraCorrecao.TemUfPasso | backend/scraping/scraper_sidra_ibge.py:94-101 | a state occurs among n + 1 entries iff among n or in the new one |
| SidraCorrecao.AgruparAteTem | backend/scraping/scraper_sidra_ibge.py:94-101 | a state is a group exactly when some well-formed name carries it |
| SidraCorrecao.AgruparAteGet | backend/scraping/scraper_sidra_ibge.py:94-101 | `agrupado[uf][cidade]` holds the content of the last name that matched (cidade, uf) |
| SidraCorrecao.AgruparAteUnico | backend/scraping/scraper_sidra_ibge.py:92-101 | the grouping has unique state and city keys |
| SidraCorrecao.AgruparAteErros | backend/scraping/scraper_sidra_ibge.py:93-99 | `erros` counts the malformed names: 0 iff all match, n iff none do |
| SidraCorrecao.OrdenarCidades | backend/scraping/scraper_sidra_ibge.py:103-106 | each state's cities are sorted |
| SidraCorrecao.OrdenarCidadesGet | backend/scraping/scraper_sidra_ibge.py:103-106 | sorting keeps the states and sorts each one's cities |
| SidraCorrecao.CorrigirNomes | scraper/core/scraper_sidra_ibge.py:109-114 | the first loop builds the corrected dict |
| SidraCorrecao.RenomearItens | scraper/core/scraper_sidra_ibge.py:110-114 | each item renamed, in order |
| SidraCorrecao.Agrupar | scraper/core/scraper_sidra_ibge.py:116-125 | the second loop builds exactly the grouping and the error count |
| SidraCorrecao.CorrigirESalvarJson | scraper/core/scraper_sidra_ibge.py:103-129 | the whole transform computes `Processado` |
| SidraCorrecao.ProcessadoGet | backend/scraping/scraper_sidra_ibge.py:87-106 | the output holds a state exactly when some name carries it, and each city holds the content of the last raw key for it |
| SidraCorrecao.ProcessadoOrdenado | backend/scraping/scraper_sidra_ibge.py:103-106 | the output is ordered by state, and each state by city |
| SidraCsv.GetDe | backend/scraping/city_data_sidra_to_csv.py:30-57 | `.get(k, default)` succeeds on dicts and gives the default for a missing key |
| SidraCsv.SeguirVazio | backend/scraping/city_data_sidra_to_csv.py:30-57 | a chain of `.get` through `{}` gives the default |
| SidraCsv.SeguirAusente | backend/scraping/city_data_sidra_to_csv.py:30-57 | a missing first key gives the default |
| SidraCsv.ColunasNiveis | backend/scraping/city_data_sidra_to_csv.py:39-43 | four columns per level: matriculas_, turmas_, docentes_ and escolas_ |
| SidraCsv.ColunasGrupo | backend/scraping/city_data_sidra_to_csv.py:45-55 | one prefixed column per field of a group |
| SidraCsv.EsquemaPartes | backend/scraping/city_data_sidra_to_csv.py:26-57 | the 42 read columns, in the order the code assigns them |
| SidraCsv.Nomes | backend/scraping/city_data_sidra_to_csv.py:26-57 | the column names, in order |
| SidraCsv.Colunas | backend/scraping/city_data_sidra_to_csv.py:26-57 | every row has 44 columns |
| SidraCsv.Cabecalho | backend/scraping/city_data_sidra_to_csv.py:27-28 | the row starts with `estado` and `cidade` |
| SidraCsv.Lidos | backend/scraping/city_data_sidra_to_csv.py:29-57 | each column reads its `.get` path with its default |
| SidraCsv.ColetadosLidos | backend/scraping/city_data_sidra_to_csv.py:26-57 | the row is built exactly when no read raises, then holding each read value |
| SidraCsv.ColetadosFalha | backend/scraping/city_data_sidra_to_csv.py:26-57 | once a read raises, the row fails |
| SidraCsv.LidosDoEsquema | backend/scraping/city_data_sidra_to_csv.py:36-57 | the education columns read from `educacao` |
| SidraCsv.PreencherFixas | backend/scraping/city_data_sidra_to_csv.py:26-37 | the fixed columns are read |
| SidraCsv.PreencherNiveis | backend/scraping/city_data_sidra_to_csv.py:39-43 | the level loop reads its 24 columns |
| SidraCsv.PreencherGrupo | backend/scraping/city_data_sidra_to_csv.py:45-55 | a group loop reads its columns |
| SidraCsv.MontarLinha | backend/scraping/city_data_sidra_to_csv.py:26-57 | the key-by-key construction computes `LinhaEsperada` |
| SidraCsv.ColunasDistintas | backend/scraping/city_data_sidra_to_csv.py:26-57 | the 44 column names are distinct |
| SidraCsv.ColunasComoEsperadas | backend/scraping/insert_database.py:20-37 | the written columns are exactly the `expected_columns` of the loader that reads this CSV |
| SidraCsv.ColunasDoEsquema | backend/scraping/city_data_sidra_to_csv.py:26-57 | the schema's names are the literal column list |
| SidraCsv.LinhaDeExiste | backend/scraping/city_data_sidra_to_csv.py:26-57 | a row exists iff every `.get` chain succeeds |
| SidraCsv.ItensDeForma | backend/scraping/city_data_sidra_to_csv.py:26-57 | the items are estado, cidade, then each column with its read value |
| SidraCsv.LinhaDeItens | backend/scraping/city_data_sidra_to_csv.py:26-57 | with distinct names the dict is exactly its items |
| SidraCsv.LinhaDeForma | backend/scraping/city_data_sidra_to_csv.py:26-57 | the row's keys and values, column by column |
| SidraCsv.LinhaExiste | backend/scraping/city_data_sidra_to_csv.py:26-57 | the city's row is built exactly when no read raises |
| SidraCsv.LinhaColunas | backend/scraping/city_data_sidra_to_csv.py:26-57 | the row has the 44 columns; `estado` and `cidade` come from the grouping keys |
| SidraCsv.LinhaValores | backend/scraping/city_data_sidra_to_csv.py:29-57 | each column holds its read value |
| SidraCsv.LinhaPadrao | backend/scraping/city_data_sidra_to_csv.py:30-57 | a missing section gives the column's default (0, or None for `codigo_ibge`) |
| SidraCsv.EntradasCidades | backend/scraping/city_data_sidra_to_csv.py:24-25 | (state, city, info) for each city, in order |
| SidraCsv.LinhasCidadesDe | backend/scraping/city_data_sidra_to_csv.py:25-59 | the cities of a state give one row each, in order, or fail |
| SidraCsv.LinhasEstadosDe | backend/scraping/city_data_sidra_to_csv.py:24-59 | one row per (state, city), in iteration order, built exactly when every state is a dict and every row builds |
| SidraCsv.LinhasCidadesFalha | backend/scraping/city_data_sidra_to_csv.py:72-73 | a failure ends the run |
| SidraCsv.LinhasEstadosFalha | backend/scraping/city_data_sidra_to_csv.py:72-73 | a failure ends the run |
| SidraCsv.CoagidaAte | backend/scraping/city_data_sidra_to_csv.py:65-67 | the coercion loop after k columns |
| SidraCsv.CoagidaPasso | backend/scraping/city_data_sidra_to_csv.py:65-67 | one more column is coerced |
| SidraCsv.CoagirColunas | backend/scraping/city_data_sidra_to_csv.py:63-67 | the column loop coerces every row |
| SidraCsv.LinhasColunas | backend/scraping/city_data_sidra_to_csv.py:26-59 | every row has the same 44 columns |
| SidraCsv.LinhasDoEstado | backend/scraping/city_data_sidra_to_csv.py:25-59 | the inner loop builds the state's rows |
| SidraCsv.Run | backend/scraping/city_data_sidra_to_csv.py:15-73 | the run builds exactly `Tabela`: every row, coerced, or the error path |
| SidraCsv.CoagidaDe | backend/scraping/city_data_sidra_to_csv.py:65-67 | `estado` and `cidade` stay; every other column becomes an int |
| SidraCsv.CoagidaIdempotente | backend/scraping/city_data_sidra_to_csv.py:65-67 | coercing twice is coercing once |
| SidraCsv.NumericoDeTexto | backend/scraping/city_data_sidra_to_csv.py:67 | the decimal text of an integer coerces to that integer |
| SidraCsv.LinhaEscrita | backend/scraping/city_data_sidra_to_csv.py:26-67 | the written row: the 44 columns, estado and cidade, and each column's read value coerced to an int |
| SidraCsv.CoagidaCabecalho | backend/scraping/city_data_sidra_to_csv.py:65-67 | after coercion the header columns are kept and the others are ints |
| SidraCsv.TabelaExiste | backend/scraping/city_data_sidra_to_csv.py:15-73 | the table is built exactly when the JSON is a dict of dicts and every row builds |
| SidraCsv.TabelaLinhas | backend/scraping/city_data_sidra_to_csv.py:24-67 | one coerced row per (state, city), in order, with the 44 columns and the grouping keys |
| PyText.Title | backend/components/charts/radar_chart.py:36 | `str.title()` keeps the length |
| PyText.TitleMeaning | backend/components/charts/radar_chart.py:36 | `str.title()` leaves uncased characters alone, upper-cases a cased letter that follows no cased letter and lower-cases one that does; `µ` and `ÿ` at a word start become `Μ` and `Ÿ`, and `ª`, `º`, `ß` stay |
| PyText.TitleExample | backend/components/charts/radar_chart.py:36 | "educação básica" becomes "Educação Básica" |
| PyText.UnescapeEscape | backend/config/dicionarios.py:253 | `re.escape` is undone by reading the pattern back, so an escaped term matches itself literally |
| PyDict.FromItemsLastWins | backend/config/dicionarios.py:20-69 | in a dict literal, the last of several equal keys wins |
| PyDict.FromItemsShrinks | backend/config/dicionarios.py:174-175 | duplicate keys make the dict smaller than its literal |

## Left out

- Language models, fuzzy scorers (`rapidfuzz`), sentence embeddings, Cohere, `numpy` scoring and
  `json.loads`: these are parameters (oracles). The model states what the code does with whatever
  they return, not what they compute.
- Database access, file reads and writes (`json.load`/`json.dump`, the CSV writers, the `.npz`
  cache), `lru_cache`, logging, `time.sleep`, `tqdm` and HTTP requests: these are I/O. The HTTP
  response of each attempt is a parameter.
  - `salvar_json_incremental` is modelled as the dict assignment it performs on the loaded file.
  - The loading of queries, municipalities and already-saved data is left out; those are
    parameters.
- `unicodedata.normalize("NFKD", …)`: modelled on the Latin-1 letters with their ASCII base letter
  and other characters dropped. Other Unicode decompositions are not modelled.
  - `str.lower` is modelled on ASCII and Latin-1.
- Regular expressions: each pattern the code uses is modelled as its own scanner. There is no
  general regex engine.
- `SidraCsv.Numerico`: `pd.to_numeric(errors="coerce").fillna(0).astype(int)` is modelled on
  integers, booleans and strings read by the `int()` rules. Lists and dicts become 0. There are no
  floats, since JSON values here carry no floats. A string such as "1.5" or "1e3" becomes 0, where
  pandas gives 1 and 1000; a string such as "1_000" becomes 1000 by the `int()` rules, which pandas'
  own number parser need not share.
- `pd.DataFrame` and `to_csv`: the frame is kept as its list of rows, and the CSV text is not
  produced.
- The float `max(...) * 1.2 or 1` scaling of the radar indicators (radar_chart.py:37), and the
  chart rendering itself (`st_echarts`, the renderers `render_chart` dispatches to, the theme):
  these are floating point and UI. `RadarChart.DadosRadar.RenderRadar` only models where that
  `max` raises.
- `RadarChart.DadosRadar.RenderRadar`: `valores` hold reals, so the `TypeError` that `max` raises on
  values that are not numbers (radar_chart.py:37) is not modelled.
- `SidraConsulta.ParseSigned`: `int()` also reads digits of other scripts (Arabic-Indic,
  full-width and so on); the model reads only ASCII digits and raises on the others.
- `PyText.TitleMeaning`: `str.title()` is modelled on ASCII and Latin-1. A word-initial `ß`
  stays `ß`, where Python writes "Ss", and characters above U+00FF are left as they are. The same
  holds for `RadarChart.RotuloRadarUnlabelled`, which uses it.
- `PyText.IsWordChar`: `\w` is modelled on ASCII, Latin-1 and Latin Extended (up to U+024F);
  letters and digits of other scripts are not word characters in the model.
- `PyValue.Repr`: `str()` of a string inside a list or dict is written with single quotes and no
  escaping. Python switches to double quotes when the string holds `'` and escapes control
  characters, so a `LlmUtils` table cell holding such a list or dict may differ.
- `TEMAS_VALIDOS` of the topic classifier comes from a module (`utils.temas`) that is not part of
  this model; it is a parameter.
- The orchestration around the core: agents, handlers, engines, the API and the frontend.
- Routing follows the code: the agent depends on the topic alone (interpreter.py:41-47). There is
  no rule that turns two or more detected cities into a comparative answer.
- The city cascade likewise follows the code. There is no separate literal scan for comparative
  questions and no longest-name-first scan.
- `SemanticCity.Agrupar` and `SemanticCity.Resolver`: Python's set iteration order is not modelled.
  Each candidate is visited once in an order the method chooses, and the contracts hold for every
  such order.
- `SidraCorrecao.Agrupar`: the relation "grouped cities + `erros` = number of corrected names"
  is not stated as a count; it is stated entry by entry (`AgruparAteGet`, `AgruparAteErros`).
- `Dicionarios.ThemeKeywordsFromHeuristicas`: it states which patterns each list holds. Their
  order is given by the definition `PatternsWhere`, which filters the table in insertion order,
  but no lemma restates that order.
- `Interpreter.InterpretarPergunta`: classification and detection are parameters returning a
  value or an exception. The real classifier is connected through
  `Interpreter.InterpretarComClassificador`.
