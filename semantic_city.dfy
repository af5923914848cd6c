/**
  backend/core/router/semantic_city.py: the city index (`carregar_cidades`,
  without the SQL) and the city-resolution cascade `detectar_cidades`.

  The cascade: explicit extraction (returned at once when it finds two or
  more cities); the comparative flag; narrowing the index to the detected
  state; fuzzy candidates; local-embedding candidates; remote-embedding
  candidates when there are none yet; then grouping by normalised name and
  dropping repeated IBGE codes, up to the cap.

  The scorers and embedding services are parameters (`Oracles`): rapidfuzz's
  `partial_ratio` and `process.extract`, the local model's ranking of the
  cached city names, and Cohere's ranking of the index names.
*/
module SemanticCity {
  import opened Wrappers
  import opened PyText
  import opened PyDict
  import opened PyList
  import opened Parser
  import Geo

  /** One index record: `{"codigo_ibge": ..., "nome": ..., "uf": ...}`. It
      has no "populacao" field. */
  datatype Cidade = Cidade(codigoIbge: int, nome: string, uf: string)

  /** One row of `SELECT codigo_ibge, cidade, estado FROM dados_municipios`. */
  datatype Linha = Linha(codigoIbge: int, cidade: string, uf: string)

  // ---------------------------------------------------------------------
  // carregar_cidades
  // ---------------------------------------------------------------------

  /** The index item one row writes. */
  function RowItem(l: Linha): (string, Cidade) {
    (Normalizar(l.cidade), Cidade(l.codigoIbge, l.cidade, l.uf))
  }

  function RowItems(linhas: seq<Linha>): (r: seq<(string, Cidade)>)
    ensures |r| == |linhas|
    ensures forall i :: 0 <= i < |linhas| ==> r[i] == RowItem(linhas[i])
  {
    if linhas == [] then []
    else RowItems(linhas[..|linhas| - 1]) + [RowItem(linhas[|linhas| - 1])]
  }

  /** The index the rows build: each row assigned in turn under its
      normalised name. */
  function RowIndex(linhas: seq<Linha>): Dict<string, Cidade> {
    FromItems(RowItems(linhas))
  }

  /** The index of the first `i + 1` rows is that of the first `i` rows with
      row `i` assigned. */
  lemma RowIndexStep(linhas: seq<Linha>, i: int)
    requires 0 <= i < |linhas|
    ensures RowIndex(linhas[..i + 1]) == Assign(RowIndex(linhas[..i]), RowItem(linhas[i]).0, RowItem(linhas[i]).1)
  {
    assert linhas[..i + 1][..i] == linhas[..i];
    FromItemsSnoc(RowItems(linhas[..i]), RowItem(linhas[i]).0, RowItem(linhas[i]).1);
  }

  /** `carregar_cidades()`, given the rows the query returns. */
  method CarregarCidades(linhas: seq<Linha>) returns (cidades: Dict<string, Cidade>)
    ensures cidades == RowIndex(linhas)
  {
    cidades := [];
    var i := 0;
    while i < |linhas|
      invariant 0 <= i <= |linhas|
      invariant cidades == RowIndex(linhas[..i])
    {
      var l := linhas[i];
      var nomeNorm := Normalizar(l.cidade);
      RowIndexStep(linhas, i);
      cidades := Assign(cidades, nomeNorm, Cidade(l.codigoIbge, l.cidade, l.uf));
      i := i + 1;
    }
    assert linhas[..|linhas|] == linhas;
  }

  /** Every entry is keyed by the normalised name of its own record. */
  predicate WellKeyed(index: Dict<string, Cidade>) {
    forall x :: x in index ==> x.0 == Normalizar(x.1.nome)
  }

  /** The index has each normalised name once, keyed by its record's
      normalised name, and no more entries than rows; every row's name is a key. */
  lemma RowIndexShape(linhas: seq<Linha>)
    ensures UniqueKeys(RowIndex(linhas))
    ensures |RowIndex(linhas)| <= |linhas|
    ensures WellKeyed(RowIndex(linhas))
    ensures forall i :: 0 <= i < |linhas| ==> HasKey(RowIndex(linhas), Normalizar(linhas[i].cidade))
  {
    var items := RowItems(linhas);
    FromItemsItems(items);
    forall i | 0 <= i < |linhas| ensures HasKey(RowIndex(linhas), Normalizar(linhas[i].cidade)) {
      FromItemsHasKey(items, Normalizar(linhas[i].cidade));
      assert items[i].0 == Normalizar(linhas[i].cidade);
    }
  }

  /** A later row with the same normalised name overwrites an earlier one:
      the last such row is the one the index keeps. */
  lemma LastRowWins(linhas: seq<Linha>, i: int)
    requires 0 <= i < |linhas|
    requires forall j :: i < j < |linhas| ==> Normalizar(linhas[j].cidade) != Normalizar(linhas[i].cidade)
    ensures Get(RowIndex(linhas), Normalizar(linhas[i].cidade))
         == Some(Cidade(linhas[i].codigoIbge, linhas[i].cidade, linhas[i].uf))
  {
    FromItemsLastWins(RowItems(linhas), i);
  }

  /** Two rows whose names normalise alike make a smaller index. */
  lemma CollidingRowsShrink(linhas: seq<Linha>, i: int, j: int)
    requires 0 <= i < j < |linhas| && Normalizar(linhas[i].cidade) == Normalizar(linhas[j].cidade)
    ensures |RowIndex(linhas)| < |linhas|
  {
    FromItemsShrinks(RowItems(linhas), i, j);
  }

  // ---------------------------------------------------------------------
  // The comparative flag and the state narrowing
  // ---------------------------------------------------------------------

  const ComparativeMarkers: seq<string> :=
    ["compare", "comparar", "versus", " x ", " e ", "diferenças", "vs", "contra"]

  /** `any(p in texto.lower() for p in markers)`: a raw substring test on the
      question as typed (only lower-cased). */
  predicate IsComparativa(texto: string) {
    exists i :: 0 <= i < |ComparativeMarkers| && Contains(Lower(texto), ComparativeMarkers[i])
  }

  /** `{nome: cid for nome, cid in index.items() if cid["uf"].lower() == uf.lower()}` */
  function Narrow(index: Dict<string, Cidade>, uf: string): (r: Dict<string, Cidade>)
    ensures forall x :: x in r <==> x in index && Lower(x.1.uf) == Lower(uf)
    ensures |r| <= |index|
  {
    if index == [] then []
    else
      var rest := Narrow(index[1..], uf);
      assert forall x :: x in index <==> x == index[0] || x in index[1..];
      if Lower(index[0].1.uf) == Lower(uf) then [index[0]] + rest else rest
  }

  // ---------------------------------------------------------------------
  // Candidate stages
  // ---------------------------------------------------------------------

  const FuzzyThreshold: real := 85.0
  const LocalThreshold: real := 0.7
  const LocalThresholdComparativa: real := 0.45
  const RemoteThreshold: real := 0.45

  /** `{nome for nome, score, _ in matches if score >= 85}` */
  function FuzzyCandidates(matches: seq<(string, real)>): set<string> {
    set m | m in matches && m.1 >= FuzzyThreshold :: m.0
  }

  /** The names the local stage adds: from the top of the ranking, those that
      reach the threshold and are keys of the current index. */
  function LocalHits(top: seq<(string, real)>, index: Dict<string, Cidade>, minScore: real): set<string> {
    set p | p in top && p.1 >= minScore && HasKey(index, p.0) :: p.0
  }

  /** The loop of the local stage over the top of the ranking. */
  method LocalStage(encontradas: set<string>, top: seq<(string, real)>,
                    index: Dict<string, Cidade>, minScore: real)
    returns (r: set<string>)
    ensures r == encontradas + LocalHits(top, index, minScore)
    ensures forall n :: n in r - encontradas ==> HasKey(index, n)
  {
    r := encontradas;
    var i := 0;
    while i < |top|
      invariant 0 <= i <= |top|
      invariant r == encontradas + LocalHits(top[..i], index, minScore)
    {
      assert top[..i + 1] == top[..i] + [top[i]];
      var (cidadeNome, score) := top[i];
      if score < minScore {
        i := i + 1;
        continue;
      }
      if HasKey(index, cidadeNome) {
        r := r + {cidadeNome};
      }
      i := i + 1;
    }
    assert top[..|top|] == top;
  }

  /** The names the remote stage adds from the top of the ranking, given as
      (position in `nomes`, score) pairs: those that reach the threshold,
      until a position that `nomes[i]` cannot index ends the stage. */
  function RemoteHits(nomes: seq<string>, top: seq<(int, real)>): (r: set<string>)
    decreases |top|
  {
    if top == [] then {}
    else if top[0].1 < RemoteThreshold then RemoteHits(nomes, top[1..])
    else if !IndexOk(nomes, top[0].0) then {}
    else {At(nomes, top[0].0)} + RemoteHits(nomes, top[1..])
  }

  /** The remote stage only adds names of the index it ranked. */
  lemma {:induction false} RemoteHitsAreNames(nomes: seq<string>, top: seq<(int, real)>)
    ensures forall n :: n in RemoteHits(nomes, top) ==> n in nomes
    decreases |top|
  {
    if top != [] {
      RemoteHitsAreNames(nomes, top[1..]);
    }
  }

  /** The loop of the remote stage; an IndexError leaves the loop and the
      stage, keeping the names added before it. */
  method RemoteStage(encontradas: set<string>, nomes: seq<string>, top: seq<(int, real)>)
    returns (r: set<string>)
    ensures r == encontradas + RemoteHits(nomes, top)
  {
    r := encontradas;
    var i := 0;
    while i < |top|
      invariant 0 <= i <= |top|
      invariant r + RemoteHits(nomes, top[i..]) == encontradas + RemoteHits(nomes, top)
    {
      assert top[i..][1..] == top[i + 1..];
      var (j, score) := top[i];
      if score >= RemoteThreshold {
        if !IndexOk(nomes, j) {
          break;
        }
        r := r + {At(nomes, j)};
      }
      i := i + 1;
    }
  }

  /** The oracles of the cascade. */
  datatype ModeloLocal =
    | SemModeloLocal
      /** The cached names with their scores against the question, best
          first, or an exception. */
    | ModeloLocal(ranking: string -> Result<seq<(string, real)>>)

  datatype Oracles = Oracles(
    /** `fuzz.partial_ratio`, for the explicit scan. */
    partialRatio: (string, string) -> int,
    /** `process.extract(query, choices, scorer=fuzz.token_sort_ratio, limit=n)`:
        (choice, score) pairs. */
    extract: (string, seq<string>, int) -> seq<(string, real)>,
    modeloLocal: ModeloLocal,
    /** The Cohere client, when a key is configured: the positions of the
        index names, best first, with their scores, or an exception. */
    co: Option<(string, seq<string>) -> Result<seq<(int, real)>>>)

  /** The candidate names the three stages collect over `index` (the index
      after narrowing): fuzzy and local always, remote only when those found
      nothing. */
  function Candidatos(textoNorm: string, index: Dict<string, Cidade>, maxCidades: int,
                      comparativa: bool, o: Oracles): set<string>
  {
    var nomesNorm := Keys(index);
    var fuzzy := FuzzyCandidates(o.extract(textoNorm, nomesNorm, maxCidades * 2));
    var local :=
      if o.modeloLocal.ModeloLocal? && o.modeloLocal.ranking(textoNorm).Success? then
        var minScore := if comparativa then LocalThresholdComparativa else LocalThreshold;
        fuzzy + LocalHits(SliceTo(o.modeloLocal.ranking(textoNorm).value, maxCidades * 2), index, minScore)
      else fuzzy;
    if local == {} && o.co.Some? && o.co.value(textoNorm, nomesNorm).Success? then
      RemoteHits(nomesNorm, SliceTo(o.co.value(textoNorm, nomesNorm).value, maxCidades * 2))
    else local
  }

  /** Without a fuzzy hit, the local and remote stages only propose names of
      the index. */
  lemma CandidatosFromIndex(textoNorm: string, index: Dict<string, Cidade>, maxCidades: int,
                            comparativa: bool, o: Oracles)
    ensures forall n :: n in Candidatos(textoNorm, index, maxCidades, comparativa, o) ==>
              n in FuzzyCandidates(o.extract(textoNorm, Keys(index), maxCidades * 2)) || HasKey(index, n)
  {
    var nomesNorm := Keys(index);
    if o.co.Some? && o.co.value(textoNorm, nomesNorm).Success? {
      var top := SliceTo(o.co.value(textoNorm, nomesNorm).value, maxCidades * 2);
      RemoteHitsAreNames(nomesNorm, top);
      forall n | n in nomesNorm ensures HasKey(index, n) {
        var i :| 0 <= i < |nomesNorm| && nomesNorm[i] == n;
        assert index[i].0 == n;
      }
    }
  }

  // ---------------------------------------------------------------------
  // Grouping and the final list
  // ---------------------------------------------------------------------

  /** The records of the names visited in `ordem`, grouped by normalised
      name; a group keeps its first record, since the records carry no
      "populacao" and the tie-break compares 0 with 0. */
  function Agrupadas(ordem: seq<string>, index: Dict<string, Cidade>): Dict<string, Cidade>
    decreases |ordem|
  {
    if ordem == [] then []
    else
      var g := Agrupadas(ordem[..|ordem| - 1], index);
      var cid := Get(index, ordem[|ordem| - 1]);
      if cid.Some? && !HasKey(g, Normalizar(cid.value.nome)) then Assign(g, Normalizar(cid.value.nome), cid.value)
      else g
  }

  /** What `cid.get("populacao", 0)` reads on every index record. */
  const PopulacaoAusente := 0

  /** The grouping loop over the candidate set, visited in an unspecified
      order, recorded in `ordem`. */
  method Agrupar(encontradas: set<string>, index: Dict<string, Cidade>)
    returns (agrupadas: Dict<string, Cidade>, ghost ordem: seq<string>)
    ensures NoDup(ordem) && forall n :: n in ordem <==> n in encontradas
    ensures agrupadas == Agrupadas(ordem, index)
  {
    agrupadas := [];
    ordem := [];
    var restantes := encontradas;
    while restantes != {}
      invariant restantes <= encontradas
      invariant forall n :: n in ordem <==> n in encontradas && n !in restantes
      invariant NoDup(ordem)
      invariant agrupadas == Agrupadas(ordem, index)
      decreases restantes
    {
      var nome :| nome in restantes;
      restantes := restantes - {nome};
      ghost var antes := ordem;
      ordem := ordem + [nome];
      assert ordem[..|ordem| - 1] == antes;
      var cid := Get(index, nome);
      if cid.Some? {
        var chave := Normalizar(cid.value.nome);
        var pop := PopulacaoAusente;
        if !HasKey(agrupadas, chave) || pop > PopulacaoAusente {
          agrupadas := Assign(agrupadas, chave, cid.value);
        }
      }
    }
  }

  /** Groups come from records of the index, keyed by their normalised name,
      once each, and there are no more groups than names visited. */
  lemma {:induction false} AgrupadasShape(ordem: seq<string>, index: Dict<string, Cidade>)
    ensures UniqueKeys(Agrupadas(ordem, index))
    ensures |Agrupadas(ordem, index)| <= |ordem|
    ensures forall x :: x in Agrupadas(ordem, index) ==> x.1 in Values(index) && x.0 == Normalizar(x.1.nome)
    decreases |ordem|
  {
    if ordem != [] {
      var init := ordem[..|ordem| - 1];
      AgrupadasShape(init, index);
      var cid := Get(index, ordem[|ordem| - 1]);
      if cid.Some? {
        var k := ordem[|ordem| - 1];
        var i :| 0 <= i < |index| && index[i] == (k, cid.value);
        assert cid.value == Values(index)[i];
      }
    }
  }

  /** The first record of a group stays: visiting more names never replaces it. */
  lemma {:induction false} AgrupadasKeepFirst(ordem: seq<string>, mais: seq<string>,
                                              index: Dict<string, Cidade>, chave: string)
    requires HasKey(Agrupadas(ordem, index), chave)
    ensures Get(Agrupadas(ordem + mais, index), chave) == Get(Agrupadas(ordem, index), chave)
    decreases |mais|
  {
    if mais == [] {
      assert ordem + mais == ordem;
    } else {
      var init := mais[..|mais| - 1];
      var todos := ordem + mais;
      assert todos[..|todos| - 1] == ordem + init;
      AgrupadasKeepFirst(ordem, init, index, chave);
      var g := Agrupadas(ordem + init, index);
      var cid := Get(index, todos[|todos| - 1]);
      assert HasKey(g, chave);
      if cid.Some? && !HasKey(g, Normalizar(cid.value.nome)) {
        assert Normalizar(cid.value.nome) != chave;
        assert Agrupadas(todos, index) == Assign(g, Normalizar(cid.value.nome), cid.value);
      } else {
        assert Agrupadas(todos, index) == g;
      }
    }
  }

  /** Every visited name of the index has its group. */
  lemma {:induction false} AgrupadasCover(ordem: seq<string>, index: Dict<string, Cidade>, j: int)
    requires 0 <= j < |ordem| && Get(index, ordem[j]).Some?
    ensures HasKey(Agrupadas(ordem, index), Normalizar(Get(index, ordem[j]).value.nome))
    decreases |ordem|
  {
    var init := ordem[..|ordem| - 1];
    if j < |ordem| - 1 {
      AgrupadasCover(init, index, j);
      assert init[j] == ordem[j];
      var cid := Get(index, ordem[|ordem| - 1]);
      if cid.Some? && !HasKey(Agrupadas(init, index), Normalizar(cid.value.nome)) {
        var k := Normalizar(Get(index, ordem[j]).value.nome);
        if k != Normalizar(cid.value.nome) {
          assert Get(Agrupadas(ordem, index), k) == Get(Agrupadas(init, index), k);
        }
      }
    }
  }

  /** There is no group exactly when no visited name is a key of the index. */
  lemma {:induction false} AgrupadasEmptyIff(ordem: seq<string>, index: Dict<string, Cidade>)
    ensures Agrupadas(ordem, index) == [] <==> forall j :: 0 <= j < |ordem| ==> !HasKey(index, ordem[j])
    decreases |ordem|
  {
    if ordem != [] {
      var init := ordem[..|ordem| - 1];
      AgrupadasEmptyIff(init, index);
      if exists j :: 0 <= j < |ordem| && HasKey(index, ordem[j]) {
        var j :| 0 <= j < |ordem| && HasKey(index, ordem[j]);
        AgrupadasCover(ordem, index, j);
      } else {
        forall j | 0 <= j < |init| ensures !HasKey(index, init[j]) {
          assert init[j] == ordem[j];
        }
      }
    }
  }

  /** The codes of a list of records. */
  function Codigos(cs: seq<Cidade>): (r: set<int>)
    ensures forall c :: c in cs ==> c.codigoIbge in r
    ensures forall k :: k in r ==> exists c :: c in cs && c.codigoIbge == k
  {
    set c | c in cs :: c.codigoIbge
  }

  /** No IBGE code occurs twice. */
  predicate DistinctCodes(cs: seq<Cidade>) {
    forall i, j :: 0 <= i < j < |cs| ==> cs[i].codigoIbge != cs[j].codigoIbge
  }

  /** The final loop over the groups from `grupos` on, with `final` built so
      far: a record is appended when its code is new, and the cap is checked
      after every group. */
  function Final(grupos: seq<Cidade>, maxCidades: int, final: seq<Cidade>, codigos: set<int>): seq<Cidade>
    decreases |grupos|
  {
    if grupos == [] then final
    else
      var c := grupos[0];
      var final' := if c.codigoIbge !in codigos then final + [c] else final;
      var codigos' := codigos + {c.codigoIbge};
      if |final'| >= maxCidades then final' else Final(grupos[1..], maxCidades, final', codigos')
  }

  /** At most `maxCidades` records, and at most one when the cap is zero or less. */
  function Cap(maxCidades: int): nat {
    if maxCidades >= 1 then maxCidades else 1
  }

  method Finalizar(grupos: seq<Cidade>, maxCidades: int) returns (final: seq<Cidade>)
    ensures final == Final(grupos, maxCidades, [], {})
  {
    final := [];
    var codigos: set<int> := {};
    var i := 0;
    while i < |grupos|
      invariant 0 <= i <= |grupos|
      invariant Final(grupos[i..], maxCidades, final, codigos) == Final(grupos, maxCidades, [], {})
    {
      assert grupos[i..][1..] == grupos[i + 1..];
      var cidade := grupos[i];
      if cidade.codigoIbge !in codigos {
        codigos := codigos + {cidade.codigoIbge};
        final := final + [cidade];
      } else {
        codigos := codigos + {cidade.codigoIbge};
      }
      if |final| >= maxCidades {
        break;
      }
      i := i + 1;
    }
  }

  /** The final list has no repeated code, keeps the cap, holds only groups,
      and, when it stops short of the cap, holds a record of every code. */
  lemma {:induction false} FinalShape(grupos: seq<Cidade>, maxCidades: int, final: seq<Cidade>, codigos: set<int>)
    requires codigos == Codigos(final) && DistinctCodes(final)
    requires |final| < Cap(maxCidades) && (final == [] || |final| < maxCidades)
    ensures var r := Final(grupos, maxCidades, final, codigos);
      && DistinctCodes(r)
      && |r| <= Cap(maxCidades)
      && (forall c :: c in r ==> c in final || c in grupos)
      && (|r| < maxCidades ==> forall c :: c in grupos ==> c.codigoIbge in Codigos(r))
    decreases |grupos|
  {
    if grupos != [] {
      var c := grupos[0];
      var final' := if c.codigoIbge !in codigos then final + [c] else final;
      var codigos' := codigos + {c.codigoIbge};
      assert codigos' == Codigos(final') by {
        if c.codigoIbge !in codigos {
          assert forall x :: x in final' <==> x in final || x == c;
        }
      }
      assert DistinctCodes(final') by {
        if c.codigoIbge !in codigos {
          forall i | 0 <= i < |final| ensures final'[i].codigoIbge != c.codigoIbge {
            assert final[i] in final;
          }
        }
      }
      if |final'| < maxCidades {
        FinalShape(grupos[1..], maxCidades, final', codigos');
        var r := Final(grupos[1..], maxCidades, final', codigos');
        assert forall x :: x in grupos <==> x == c || x in grupos[1..];
        forall x | x in final' ensures x.codigoIbge in Codigos(r) {
          assert x in r by {
            var i :| 0 <= i < |final'| && final'[i] == x;
            FinalExtends(grupos[1..], maxCidades, final', codigos');
            assert r[i] == x;
          }
        }
      }
    }
  }

  /** The loop only appends. */
  lemma {:induction false} FinalExtends(grupos: seq<Cidade>, maxCidades: int, final: seq<Cidade>, codigos: set<int>)
    ensures |final| <= |Final(grupos, maxCidades, final, codigos)|
    ensures Final(grupos, maxCidades, final, codigos)[..|final|] == final
    decreases |grupos|
  {
    if grupos != [] {
      var c := grupos[0];
      var final' := if c.codigoIbge !in codigos then final + [c] else final;
      var codigos' := codigos + {c.codigoIbge};
      if |final'| < maxCidades {
        FinalExtends(grupos[1..], maxCidades, final', codigos');
        assert final'[..|final|] == final;
      }
    }
  }

  // ---------------------------------------------------------------------
  // detectar_cidades
  // ---------------------------------------------------------------------

  /** The state narrowing applies: a state is detected and the question is
      not comparative. */
  predicate Narrowed(texto: string) {
    var uf := Geo.DetectarUf(texto);
    uf.Some? && uf.value != "" && !IsComparativa(texto)
  }

  /** The index the candidate stages search. */
  function IndexAfterNarrowing(texto: string, index: Dict<string, Cidade>): Dict<string, Cidade> {
    if Narrowed(texto) then Narrow(index, Geo.DetectarUf(texto).value) else index
  }

  /** The comparative flag and the narrowing of the index to the state
      detected in the normalised question. */
  method EstreitarPorUf(texto: string, textoNorm: string, index: Dict<string, Cidade>)
    returns (isComparativa: bool, estreito: Dict<string, Cidade>)
    requires textoNorm == Normalizar(texto)
    ensures isComparativa == IsComparativa(texto)
    ensures estreito == IndexAfterNarrowing(texto, index)
  {
    isComparativa := exists i :: 0 <= i < |ComparativeMarkers| && Contains(Lower(texto), ComparativeMarkers[i]);
    var ufDetectada := Geo.DetectarUf(textoNorm);
    Geo.DetectarUfIgnoresCaseAndAccents(texto);
    estreito := index;
    if ufDetectada.Some? && ufDetectada.value != "" {
      if !isComparativa {
        estreito := Narrow(index, ufDetectada.value);
      }
    }
  }

  /** The fuzzy, local and remote stages over the (narrowed) index. */
  method ColetarCandidatos(textoNorm: string, index: Dict<string, Cidade>, maxCidades: int,
                           isComparativa: bool, o: Oracles)
    returns (encontradas: set<string>)
    ensures encontradas == Candidatos(textoNorm, index, maxCidades, isComparativa, o)
  {
    var nomesNorm := Keys(index);
    encontradas := FuzzyCandidates(o.extract(textoNorm, nomesNorm, maxCidades * 2));
    if o.modeloLocal.ModeloLocal? {
      var ranking := o.modeloLocal.ranking(textoNorm);
      if ranking.Success? {
        var minScore := if isComparativa then LocalThresholdComparativa else LocalThreshold;
        var top := SliceTo(ranking.value, maxCidades * 2);
        encontradas := LocalStage(encontradas, top, index, minScore);
      }
    }
    if encontradas == {} && o.co.Some? {
      var resposta := o.co.value(textoNorm, nomesNorm);
      if resposta.Success? {
        encontradas := RemoteStage(encontradas, nomesNorm, SliceTo(resposta.value, maxCidades * 2));
      }
    }
  }

  /** Grouping the candidates and the final list, for a nonempty candidate
      set; `ordem` is the order in which the set was visited. */
  method Resolver(encontradas: set<string>, index: Dict<string, Cidade>, maxCidades: int)
    returns (r: seq<Cidade>, ghost ordem: seq<string>)
    ensures NoDup(ordem) && forall n :: n in ordem <==> n in encontradas
    ensures r == Final(Values(Agrupadas(ordem, index)), maxCidades, [], {})
    ensures DistinctCodes(r) && |r| <= Cap(maxCidades)
    ensures forall c :: c in r ==> c in Values(index)
    ensures |r| < maxCidades ==>
              forall g :: g in Values(Agrupadas(ordem, index)) ==> g.codigoIbge in Codigos(r)
    ensures r == [] <==> forall n :: n in encontradas ==> !HasKey(index, n)
  {
    var agrupadas;
    agrupadas, ordem := Agrupar(encontradas, index);
    r := Finalizar(Values(agrupadas), maxCidades);
    AgrupadasShape(ordem, index);
    FinalShape(Values(agrupadas), maxCidades, [], {});
    AgrupadasEmptyIff(ordem, index);
    if agrupadas != [] {
      var grupos := Values(agrupadas);
      FinalExtends(grupos[1..], maxCidades, [grupos[0]], {grupos[0].codigoIbge});
    }
    assert (forall n :: n in encontradas ==> !HasKey(index, n))
       <==> (forall j :: 0 <= j < |ordem| ==> !HasKey(index, ordem[j]));
    forall c | c in Values(agrupadas) ensures c in Values(index) {
      var i :| 0 <= i < |agrupadas| && Values(agrupadas)[i] == c;
      assert agrupadas[i] in agrupadas;
    }
  }

  /** `detectar_cidades(texto, max_cidades)` over the rows of the city table.
      With fewer than two explicit hits, the result is the final list of the
      groups of the candidates, visited in the order `ordem` the set chose. */
  method DetectarCidades(texto: string, linhas: seq<Linha>, maxCidades: int, o: Oracles)
    returns (r: seq<Cidade>, ghost candidatos: set<string>, ghost ordem: seq<string>)
    ensures var exp := Scan(RowIndex(linhas), maxCidades, HitTest(Normalizar(texto), o.partialRatio), []);
      && (|exp| >= 2 ==> r == SliceTo(exp, maxCidades))
      && (|exp| < 2 ==>
            var index := IndexAfterNarrowing(texto, RowIndex(linhas));
            && candidatos == Candidatos(Normalizar(texto), index, maxCidades, IsComparativa(texto), o)
            && NoDup(ordem) && (forall n :: n in ordem <==> n in candidatos)
            && r == Final(Values(Agrupadas(ordem, index)), maxCidades, [], {})
            && (|r| < maxCidades ==>
                  forall g :: g in Values(Agrupadas(ordem, index)) ==> g.codigoIbge in Codigos(r))
            && (r == [] <==> forall n :: n in candidatos ==> !HasKey(index, n))
            && DistinctCodes(r)
            && |r| <= Cap(maxCidades)
            && (forall c :: c in r ==> c in Values(index)))
  {
    var cidadesIndex := CarregarCidades(linhas);
    var textoNorm := Normalizar(texto);
    NormalizarIdempotent(texto);
    var cidadesExp := ExtrairCidadesExplicitamente(textoNorm, cidadesIndex, maxCidades, o.partialRatio);
    if |cidadesExp| >= 2 {
      r := SliceTo(cidadesExp, maxCidades);
      candidatos := {};
      ordem := [];
      return;
    }

    var isComparativa;
    isComparativa, cidadesIndex := EstreitarPorUf(texto, textoNorm, cidadesIndex);
    var encontradas := ColetarCandidatos(textoNorm, cidadesIndex, maxCidades, isComparativa, o);
    candidatos := encontradas;
    if encontradas == {} {
      r := [];
      ordem := [];
      return;
    }
    r, ordem := Resolver(encontradas, cidadesIndex, maxCidades);
  }
}
