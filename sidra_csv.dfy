/**
  backend/scraping/city_data_sidra_to_csv.py: the grouped SIDRA JSON
  (state -> city -> record) flattened into one row per city with a fixed
  set of 44 columns, every column but the state and the city then coerced
  to an integer.

  Reading the JSON, building the pandas DataFrame and writing the CSV are
  not modelled: the loaded JSON is a parameter and the rows are the result.
  The whole run sits in one `try` that only logs, so a run that raises
  gives None.
*/
module SidraCsv {
  import opened Wrappers
  import opened PyDict
  import opened PyValue
  import SidraConsulta

  const Niveis: seq<string> := ["infantil", "fundamental", "medio", "eja", "especial", "tecnico"]

  /** The four counts kept per level, in the order the loop assigns them. */
  const Contagens: seq<string> := ["matriculas", "turmas", "docentes", "escolas"]

  const CamposInfra: seq<string> := ["biblioteca", "lab_ciencias", "lab_informatica",
                                     "cozinha", "refeitorio", "quadra_esportes",
                                     "internet", "acessibilidade_rampas"]

  const CamposProf: seq<string> := ["professores_pedagogia", "coordenadores", "monitores"]

  // ---------------------------------------------------------------------
  // Chained `.get` lookups
  // ---------------------------------------------------------------------

  /** `v.get(k, padrao)`: only a dict has `.get`; on anything else Python
      raises AttributeError (None). */
  function GetDe(v: Value, k: string, padrao: Value): (r: Option<Value>)
    ensures r.Some? <==> v.VDict?
    ensures v.VDict? && !HasKey(v.entries, k) ==> r == Some(padrao)
  {
    if v.VDict? then Some(GetOr(v.entries, k, padrao)) else None
  }

  /** `v.get(c0, {}).get(c1, {}) ... .get(cn, padrao)`; no key at all is
      `v` itself. */
  function Seguir(v: Value, caminho: seq<string>, padrao: Value): Option<Value>
    decreases |caminho|
  {
    if caminho == [] then Some(v)
    else if |caminho| == 1 then GetDe(v, caminho[0], padrao)
    else
      match GetDe(v, caminho[0], VDict([]))
      case None => None
      case Some(w) => Seguir(w, caminho[1..], padrao)
  }

  /** Every lookup below a missing key yields the final default. */
  lemma {:induction false} SeguirVazio(caminho: seq<string>, padrao: Value)
    requires caminho != []
    ensures Seguir(VDict([]), caminho, padrao) == Some(padrao)
    decreases |caminho|
  {
    var vazio: Dict<string, Value> := [];
    assert !HasKey(vazio, caminho[0]);
    if |caminho| > 1 {
      SeguirVazio(caminho[1..], padrao);
    }
  }

  /** A record that lacks the first key of a path gets the default of the
      column. */
  lemma SeguirAusente(info: Dict<string, Value>, caminho: seq<string>, padrao: Value)
    requires caminho != [] && !HasKey(info, caminho[0])
    ensures Seguir(VDict(info), caminho, padrao) == Some(padrao)
  {
    if |caminho| > 1 {
      SeguirVazio(caminho[1..], padrao);
    }
  }

  // ---------------------------------------------------------------------
  // The columns
  // ---------------------------------------------------------------------

  /** A column filled from the record: its name, the keys followed from the
      record, and the default of the last lookup. */
  datatype Coluna = Coluna(nome: string, caminho: seq<string>, padrao: Value)

  function Zero(): Value {
    VInt(0)
  }

  /** The columns of the dict literal, and `ano_educacao`. */
  const Fixas: seq<Coluna> := [
    Coluna("codigo_ibge", ["codigo_ibge"], VNone),
    Coluna("populacao", ["populacao", "valor"], Zero()),
    Coluna("ano_populacao", ["populacao", "ano"], Zero()),
    Coluna("pib_per_capita", ["pib_per_capita", "valor"], Zero()),
    Coluna("ano_pib", ["pib_per_capita", "ano"], Zero()),
    Coluna("ano_educacao", ["educacao", "ano"], Zero())
  ]

  /** `f"{contagem}_{nivel}"`, read from `educacao[contagem][nivel]`. */
  function PorNivel(i: nat, t: nat): Coluna
    requires i < |Niveis| && t < |Contagens|
  {
    Coluna(Contagens[t] + "_" + Niveis[i], ["educacao", Contagens[t], Niveis[i]], Zero())
  }

  /** `f"{prefixo}{campo}"`, read from `educacao[sub][campo]`: the
      infrastructure and staff loops. */
  function DeGrupo(sub: string, prefixo: string, campo: string): Coluna {
    Coluna(prefixo + campo, ["educacao", sub, campo], Zero())
  }

  const SubInfra: string := "infraestrutura_ensino_basico"
  const PrefixoInfra: string := "infra_basica_"
  const SubProf: string := "profissionais_ensino_basico"
  const PrefixoProf: string := "prof_basica_"

  const Cursos: Coluna := Coluna("cursos_tecnicos_ofertados", ["educacao", "cursos_tecnicos_ofertados"], Zero())

  /** Every column after `estado` and `cidade`, in the order the row is
      filled. */
  const Esquema: seq<Coluna> :=
    Fixas + ColunasNiveis() + ColunasGrupo(SubInfra, PrefixoInfra, CamposInfra)
    + ColunasGrupo(SubProf, PrefixoProf, CamposProf) + [Cursos]

  /** The level loop's columns, four per level. */
  function ColunasNiveis(): (r: seq<Coluna>)
    ensures |r| == 4 * |Niveis|
    ensures forall i, t :: 0 <= i < |Niveis| && 0 <= t < |Contagens| ==> r[4 * i + t] == PorNivel(i, t)
  {
    var r := seq(4 * |Niveis|, j requires 0 <= j < 4 * |Niveis| => PorNivel(j / 4, j % 4));
    forall i, t | 0 <= i < |Niveis| && 0 <= t < |Contagens| ensures r[4 * i + t] == PorNivel(i, t) {
      assert (4 * i + t) / 4 == i && (4 * i + t) % 4 == t;
    }
    r
  }

  /** One group loop's columns, one per field. */
  function ColunasGrupo(sub: string, prefixo: string, campos: seq<string>): (r: seq<Coluna>)
    ensures |r| == |campos|
    ensures forall j :: 0 <= j < |r| ==> r[j] == DeGrupo(sub, prefixo, campos[j])
  {
    seq(|campos|, j requires 0 <= j < |campos| => DeGrupo(sub, prefixo, campos[j]))
  }

  /** Positions in `Esquema` where each part starts. */
  const InicioNiveis: nat := 6
  const InicioInfra: nat := 30
  const InicioProf: nat := 38
  const InicioCursos: nat := 41

  lemma EsquemaPartes()
    ensures |Esquema| == 42
    ensures forall j :: 0 <= j < InicioNiveis ==> Esquema[j] == Fixas[j]
    ensures forall i, t :: 0 <= i < 6 && 0 <= t < 4 ==> Esquema[InicioNiveis + 4 * i + t] == PorNivel(i, t)
    ensures forall j :: 0 <= j < 8 ==> Esquema[InicioInfra + j] == DeGrupo(SubInfra, PrefixoInfra, CamposInfra[j])
    ensures forall j :: 0 <= j < 3 ==> Esquema[InicioProf + j] == DeGrupo(SubProf, PrefixoProf, CamposProf[j])
    ensures Esquema[InicioCursos] == Cursos
  {
  }

  /** The names of some columns. */
  function Nomes(cols: seq<Coluna>): (r: seq<string>)
    ensures |r| == |cols|
    ensures forall j :: 0 <= j < |cols| ==> r[j] == cols[j].nome
  {
    seq(|cols|, j requires 0 <= j < |cols| => cols[j].nome)
  }

  lemma NomesConcat(a: seq<Coluna>, b: seq<Coluna>)
    ensures Nomes(a + b) == Nomes(a) + Nomes(b)
  {
  }

  /** The column names of a row, in order. */
  function Colunas(): (r: seq<string>)
    ensures |r| == 44
  {
    EsquemaPartes();
    ["estado", "cidade"] + Nomes(Esquema)
  }

  /** `expected_columns` of the loader that reads this CSV
      (backend/scraping/insert_database.py). */
  const ColunasEsperadas: seq<string> := [
    "estado", "cidade", "codigo_ibge",
    "populacao", "ano_populacao", "pib_per_capita", "ano_pib",
    "ano_educacao",
    "matriculas_infantil", "matriculas_fundamental", "matriculas_medio",
    "matriculas_eja", "matriculas_especial", "matriculas_tecnico",
    "turmas_infantil", "turmas_fundamental", "turmas_medio",
    "turmas_eja", "turmas_especial", "turmas_tecnico",
    "docentes_infantil", "docentes_fundamental", "docentes_medio",
    "docentes_eja", "docentes_especial", "docentes_tecnico",
    "escolas_infantil", "escolas_fundamental", "escolas_medio",
    "escolas_eja", "escolas_especial", "escolas_tecnico",
    "infra_basica_biblioteca", "infra_basica_lab_ciencias", "infra_basica_lab_informatica",
    "infra_basica_cozinha", "infra_basica_refeitorio", "infra_basica_quadra_esportes",
    "infra_basica_internet", "infra_basica_acessibilidade_rampas",
    "prof_basica_professores_pedagogia", "prof_basica_coordenadores", "prof_basica_monitores",
    "cursos_tecnicos_ofertados"
  ]

  // ---------------------------------------------------------------------
  // One row
  // ---------------------------------------------------------------------

  /** `{"estado": uf, "cidade": cidade, ...}`: the two keys the row starts with. */
  function Cabecalho(uf: string, cidade: string): (r: Dict<string, Value>)
    ensures UniqueKeys(r) && Keys(r) == ["estado", "cidade"]
  {
    [("estado", VStr(uf)), ("cidade", VStr(cidade))]
  }

  /** Each column's name with what its lookups yield (None where a `.get`
      raises). */
  function Lidos(info: Value, cols: seq<Coluna>): (r: seq<(string, Option<Value>)>)
    ensures |r| == |cols|
    ensures forall j :: 0 <= j < |cols| ==> r[j] == (cols[j].nome, Seguir(info, cols[j].caminho, cols[j].padrao))
  {
    seq(|cols|, j requires 0 <= j < |cols| => (cols[j].nome, Seguir(info, cols[j].caminho, cols[j].padrao)))
  }

  /** The items of the first `k` reads, None once one of them has raised. */
  function Coletados(lidos: seq<(string, Option<Value>)>, k: nat): Option<seq<(string, Value)>>
    requires k <= |lidos|
  {
    if k == 0 then Some([])
    else
      match Coletados(lidos, k - 1)
      case None => None
      case Some(xs) =>
        match lidos[k - 1].1
        case None => None
        case Some(v) => Some(xs + [(lidos[k - 1].0, v)])
  }

  /** The assignments to the row of one city over the columns `cols`: the
      state and city keys, then one per column; None when a lookup raises. */
  function ItensDe(cols: seq<Coluna>, uf: string, cidade: string, info: Value): Option<seq<(string, Value)>> {
    match Coletados(Lidos(info, cols), |cols|)
    case None => None
    case Some(xs) => Some(Cabecalho(uf, cidade) + xs)
  }

  /** The row those assignments leave. */
  function LinhaDe(cols: seq<Coluna>, uf: string, cidade: string, info: Value): Option<Dict<string, Value>> {
    match ItensDe(cols, uf, cidade, info)
    case None => None
    case Some(itens) => Some(FromItems(itens))
  }

  /** The row `run()` builds for one city. */
  function LinhaEsperada(uf: string, cidade: string, info: Value): Option<Dict<string, Value>> {
    LinhaDe(Esquema, uf, cidade, info)
  }

  /** The items are there exactly when every read succeeded, and item `j`
      is read `j`. */
  lemma {:induction false} ColetadosLidos(lidos: seq<(string, Option<Value>)>, k: nat)
    requires k <= |lidos|
    ensures Coletados(lidos, k).Some? <==> forall j :: 0 <= j < k ==> lidos[j].1.Some?
    ensures Coletados(lidos, k).Some? ==>
              |Coletados(lidos, k).value| == k
              && forall j :: 0 <= j < k ==> Coletados(lidos, k).value[j] == (lidos[j].0, lidos[j].1.value)
  {
    if k > 0 {
      ColetadosLidos(lidos, k - 1);
    }
  }

  /** Once a `.get` has raised, the row raises. */
  lemma {:induction false} ColetadosFalha(lidos: seq<(string, Option<Value>)>, k: nat, m: nat)
    requires k <= m <= |lidos| && Coletados(lidos, k).None?
    ensures Coletados(lidos, m).None?
    decreases m - k
  {
    if k < m {
      ColetadosFalha(lidos, k + 1, m);
    }
  }

  /** One more assignment to the row is one more item. */
  lemma FromItemsSnocDe(cab: Dict<string, Value>, xs: seq<(string, Value)>, k: string, v: Value)
    ensures FromItems(cab + (xs + [(k, v)])) == Assign(FromItems(cab + xs), k, v)
  {
    assert cab + (xs + [(k, v)]) == (cab + xs) + [(k, v)];
    FromItemsSnoc(cab + xs, k, v);
  }

  /** Read `4 * i + t` of the level loop: `educacao.get(contagem, {}).get(nivel, 0)`. */
  predicate LidoNivel(lidos: seq<(string, Option<Value>)>, educacao: Value, i: nat, t: nat) {
    i < |Niveis| && t < |Contagens| && InicioNiveis + 4 * i + t < |lidos|
    && lidos[InicioNiveis + 4 * i + t] == (Contagens[t] + "_" + Niveis[i], Seguir(educacao, [Contagens[t], Niveis[i]], Zero()))
  }

  /** Read `j` of a group loop: `grupo.get(campo, 0)` with
      `grupo = educacao.get(sub, {})`. */
  predicate LidoGrupo(lidos: seq<(string, Option<Value>)>, educacao: Value, inicio: nat,
                      sub: string, prefixo: string, campos: seq<string>, j: nat) {
    j < |campos| && inicio + j < |lidos|
    && lidos[inicio + j] == (prefixo + campos[j],
                             match GetDe(educacao, sub, VDict([]))
                             case None => None
                             case Some(g) => GetDe(g, campos[j], Zero()))
  }

  /** `educacao.get(a, {}).get(b, 0)` is the lookup from the record. */
  lemma SeguirEducacao(info: Value, educacao: Value, caminho: seq<string>, padrao: Value)
    requires GetDe(info, "educacao", VDict([])) == Some(educacao)
    requires |caminho| >= 2 && caminho[0] == "educacao"
    ensures Seguir(info, caminho, padrao) == Seguir(educacao, caminho[1..], padrao)
  {
  }

  /** Two lookups from `educacao`: the group, then the field. */
  lemma SeguirDois(educacao: Value, sub: string, campo: string, padrao: Value)
    ensures Seguir(educacao, [sub, campo], padrao)
            == match GetDe(educacao, sub, VDict([]))
               case None => None
               case Some(g) => GetDe(g, campo, padrao)
  {
    assert [sub, campo][1..] == [campo];
  }

  /** What `Esquema` reads from a record whose `educacao` is `educacao`,
      loop by loop. */
  lemma LidosDoEsquema(info: Value, educacao: Value)
    requires GetDe(info, "educacao", VDict([])) == Some(educacao)
    ensures forall i, t :: 0 <= i < |Niveis| && 0 <= t < |Contagens| ==> LidoNivel(Lidos(info, Esquema), educacao, i, t)
    ensures forall j :: 0 <= j < |CamposInfra| ==>
              LidoGrupo(Lidos(info, Esquema), educacao, InicioInfra, SubInfra, PrefixoInfra, CamposInfra, j)
    ensures forall j :: 0 <= j < |CamposProf| ==>
              LidoGrupo(Lidos(info, Esquema), educacao, InicioProf, SubProf, PrefixoProf, CamposProf, j)
    ensures Lidos(info, Esquema)[InicioCursos] == (Cursos.nome, GetDe(educacao, "cursos_tecnicos_ofertados", Zero()))
  {
    LidosNiveis(info, educacao);
    LidosGrupo(info, educacao, SubInfra, PrefixoInfra, CamposInfra, InicioInfra);
    LidosGrupo(info, educacao, SubProf, PrefixoProf, CamposProf, InicioProf);
    EsquemaPartes();
    SeguirEducacao(info, educacao, Cursos.caminho, Zero());
    assert Cursos.caminho[1..] == ["cursos_tecnicos_ofertados"];
  }

  /** The level loop's reads. */
  lemma LidosNiveis(info: Value, educacao: Value)
    requires GetDe(info, "educacao", VDict([])) == Some(educacao)
    ensures forall i, t :: 0 <= i < |Niveis| && 0 <= t < |Contagens| ==> LidoNivel(Lidos(info, Esquema), educacao, i, t)
  {
    EsquemaPartes();
    forall i, t | 0 <= i < |Niveis| && 0 <= t < |Contagens| ensures LidoNivel(Lidos(info, Esquema), educacao, i, t) {
      LidoDeNivel(info, educacao, i, t, InicioNiveis + 4 * i + t);
    }
  }

  lemma LidoDeNivel(info: Value, educacao: Value, i: nat, t: nat, k: nat)
    requires GetDe(info, "educacao", VDict([])) == Some(educacao)
    requires i < |Niveis| && t < |Contagens| && k == InicioNiveis + 4 * i + t
    requires k < |Esquema| && Esquema[k] == PorNivel(i, t)
    ensures LidoNivel(Lidos(info, Esquema), educacao, i, t)
  {
    var c := Esquema[k];
    SeguirEducacao(info, educacao, c.caminho, Zero());
    assert c.caminho[1..] == [Contagens[t], Niveis[i]];
  }

  /** A group loop's reads, given where its columns sit in `Esquema`. */
  lemma LidosGrupo(info: Value, educacao: Value, sub: string, prefixo: string, campos: seq<string>, inicio: nat)
    requires GetDe(info, "educacao", VDict([])) == Some(educacao)
    requires inicio + |campos| <= |Esquema|
    requires forall j :: 0 <= j < |campos| ==> Esquema[inicio + j] == DeGrupo(sub, prefixo, campos[j])
    ensures forall j :: 0 <= j < |campos| ==> LidoGrupo(Lidos(info, Esquema), educacao, inicio, sub, prefixo, campos, j)
  {
    forall j | 0 <= j < |campos| ensures LidoGrupo(Lidos(info, Esquema), educacao, inicio, sub, prefixo, campos, j) {
      LidoDeGrupo(info, educacao, sub, prefixo, campos[j], inicio + j);
    }
  }

  lemma LidoDeGrupo(info: Value, educacao: Value, sub: string, prefixo: string, campo: string, k: nat)
    requires GetDe(info, "educacao", VDict([])) == Some(educacao)
    requires k < |Esquema| && Esquema[k] == DeGrupo(sub, prefixo, campo)
    ensures Lidos(info, Esquema)[k]
            == (prefixo + campo,
                match GetDe(educacao, sub, VDict([]))
                case None => None
                case Some(g) => GetDe(g, campo, Zero()))
  {
    var c := Esquema[k];
    SeguirEducacao(info, educacao, c.caminho, Zero());
    assert c.caminho[1..] == [sub, campo];
    SeguirDois(educacao, sub, campo, Zero());
  }

  /** The dict literal and `ano_educacao`: the assignments of the row after
      `estado` and `cidade`, None once a `.get` raises. */
  method PreencherFixas(info: Value, ghost lidos: seq<(string, Option<Value>)>)
    returns (r: Option<seq<(string, Value)>>)
    requires InicioNiveis <= |lidos|
    requires forall j :: 0 <= j < InicioNiveis ==> lidos[j] == (Fixas[j].nome, Seguir(info, Fixas[j].caminho, Fixas[j].padrao))
    ensures r == Coletados(lidos, InicioNiveis)
  {
    var xs := [];
    for k := 0 to InicioNiveis
      invariant Coletados(lidos, k) == Some(xs)
    {
      var c := Fixas[k];
      var v := Seguir(info, c.caminho, c.padrao);
      if v.None? {
        ColetadosFalha(lidos, k + 1, InicioNiveis);
        return None;
      }
      xs := xs + [(c.nome, v.value)];
    }
    return Some(xs);
  }

  /** The level loop: four counts per level, read from `educacao`. */
  method PreencherNiveis(educacao: Value, xs0: seq<(string, Value)>, ghost lidos: seq<(string, Option<Value>)>)
    returns (r: Option<seq<(string, Value)>>)
    requires InicioInfra <= |lidos|
    requires forall i, t :: 0 <= i < |Niveis| && 0 <= t < |Contagens| ==> LidoNivel(lidos, educacao, i, t)
    requires Coletados(lidos, InicioNiveis) == Some(xs0)
    ensures r == Coletados(lidos, InicioInfra)
  {
    var xs := xs0;
    ghost var k := InicioNiveis;
    for i := 0 to |Niveis|
      invariant k == InicioNiveis + 4 * i
      invariant Coletados(lidos, k) == Some(xs)
    {
      for t := 0 to |Contagens|
        invariant k == InicioNiveis + 4 * i + t
        invariant Coletados(lidos, k) == Some(xs)
      {
        var v := Seguir(educacao, [Contagens[t], Niveis[i]], Zero());
        assert LidoNivel(lidos, educacao, i, t);
        if v.None? {
          ColetadosFalha(lidos, k + 1, InicioInfra);
          return None;
        }
        xs := xs + [(Contagens[t] + "_" + Niveis[i], v.value)];
        k := k + 1;
      }
    }
    return Some(xs);
  }

  /** `grupo = educacao.get(sub, {})`, then one `linha[prefixo + campo]` per
      field: the infrastructure and the staff loops. */
  method PreencherGrupo(educacao: Value, sub: string, prefixo: string, campos: seq<string>,
                        inicio: nat, fim: nat, xs0: seq<(string, Value)>, ghost lidos: seq<(string, Option<Value>)>)
    returns (r: Option<seq<(string, Value)>>)
    requires fim == inicio + |campos| <= |lidos|
    requires forall j :: 0 <= j < |campos| ==> LidoGrupo(lidos, educacao, inicio, sub, prefixo, campos, j)
    requires Coletados(lidos, inicio) == Some(xs0)
    ensures r == Coletados(lidos, fim)
  {
    var xs := xs0;
    var grupo := GetDe(educacao, sub, VDict([]));
    for k := inicio to fim
      invariant Coletados(lidos, k) == Some(xs)
    {
      var campo := campos[k - inicio];
      var v := match grupo case None => None case Some(g) => GetDe(g, campo, Zero());
      assert LidoGrupo(lidos, educacao, inicio, sub, prefixo, campos, k - inicio);
      if v.None? {
        ColetadosFalha(lidos, k + 1, fim);
        return None;
      }
      xs := xs + [(prefixo + campo, v.value)];
    }
    return Some(xs);
  }

  /** The body of the inner loop of `run()`: the dict literal, then the
      level, infrastructure and staff loops and the technical courses, one
      assignment per column. The row's assignments are collected in order
      and the dict is the result of performing them (`FromItems`, which is
      `Assign` after `Assign`, see `PyDict.FromItemsSnoc`). */
  method MontarLinha(uf: string, cidade: string, info: Value) returns (r: Option<Dict<string, Value>>)
    ensures r == LinhaEsperada(uf, cidade, info)
  {
    EsquemaPartes();
    ghost var lidos := Lidos(info, Esquema);
    var xs := PreencherFixas(info, lidos);
    if xs.None? {
      ColetadosFalha(lidos, InicioNiveis, |Esquema|);
      return None;
    }
    // The record is a dict by now, so `info.get("educacao", {})` succeeds.
    var educacao := GetDe(info, "educacao", VDict([])).value;
    LidosDoEsquema(info, educacao);
    xs := PreencherNiveis(educacao, xs.value, lidos);
    if xs.None? {
      ColetadosFalha(lidos, InicioInfra, |Esquema|);
      return None;
    }
    xs := PreencherGrupo(educacao, SubInfra, PrefixoInfra, CamposInfra, InicioInfra, InicioProf, xs.value, lidos);
    if xs.None? {
      ColetadosFalha(lidos, InicioProf, |Esquema|);
      return None;
    }
    xs := PreencherGrupo(educacao, SubProf, PrefixoProf, CamposProf, InicioProf, InicioCursos, xs.value, lidos);
    if xs.None? {
      ColetadosFalha(lidos, InicioCursos, |Esquema|);
      return None;
    }
    var cursos := GetDe(educacao, "cursos_tecnicos_ofertados", Zero());
    if cursos.None? {
      return None;
    }
    return Some(FromItems(Cabecalho(uf, cidade) + (xs.value + [(Cursos.nome, cursos.value)])));
  }

  // ---------------------------------------------------------------------
  // The columns of every row
  // ---------------------------------------------------------------------

  /** The column names in the order the row is filled, in six parts: the
      level loop writes the four counts of one level before the next. */
  const ColunasNaOrdem: seq<string> :=
    ColunasCabeca + ColunasInfantilFundamental + ColunasMedioEja + ColunasEspecialTecnico + ColunasInfra + ColunasProfCursos

  const ColunasCabeca: seq<string> := [
    "estado", "cidade", "codigo_ibge", "populacao", "ano_populacao", "pib_per_capita", "ano_pib",
    "ano_educacao"
  ]

  const ColunasInfantilFundamental: seq<string> := [
    "matriculas_infantil", "turmas_infantil", "docentes_infantil", "escolas_infantil",
    "matriculas_fundamental", "turmas_fundamental", "docentes_fundamental", "escolas_fundamental"
  ]

  const ColunasMedioEja: seq<string> := [
    "matriculas_medio", "turmas_medio", "docentes_medio", "escolas_medio", "matriculas_eja",
    "turmas_eja", "docentes_eja", "escolas_eja"
  ]

  const ColunasEspecialTecnico: seq<string> := [
    "matriculas_especial", "turmas_especial", "docentes_especial", "escolas_especial",
    "matriculas_tecnico", "turmas_tecnico", "docentes_tecnico", "escolas_tecnico"
  ]

  const ColunasInfra: seq<string> := [
    "infra_basica_biblioteca", "infra_basica_lab_ciencias", "infra_basica_lab_informatica",
    "infra_basica_cozinha", "infra_basica_refeitorio", "infra_basica_quadra_esportes",
    "infra_basica_internet", "infra_basica_acessibilidade_rampas"
  ]

  const ColunasProfCursos: seq<string> := [
    "prof_basica_professores_pedagogia", "prof_basica_coordenadores", "prof_basica_monitores",
    "cursos_tecnicos_ofertados"
  ]

  predicate Distintos(xs: seq<string>) {
    forall i, j :: 0 <= i < j < |xs| ==> xs[i] != xs[j]
  }

  predicate Disjuntos(a: seq<string>, b: seq<string>) {
    forall i, j :: 0 <= i < |a| && 0 <= j < |b| ==> a[i] != b[j]
  }

  lemma DistintosConcat(a: seq<string>, b: seq<string>)
    requires Distintos(a) && Distintos(b) && Disjuntos(a, b)
    ensures Distintos(a + b)
  {
    var c := a + b;
    forall i, j | 0 <= i < j < |c| ensures c[i] != c[j] {
      if j < |a| {
        assert c[i] == a[i] && c[j] == a[j];
      } else if i >= |a| {
        assert c[i] == b[i - |a|] && c[j] == b[j - |a|];
      } else {
        assert c[i] == a[i] && c[j] == b[j - |a|];
      }
    }
  }

  lemma DisjuntosConcat(a: seq<string>, b: seq<string>, c: seq<string>)
    requires Disjuntos(a, c) && Disjuntos(b, c)
    ensures Disjuntos(a + b, c)
  {
    var ab := a + b;
    forall i, j | 0 <= i < |ab| && 0 <= j < |c| ensures ab[i] != c[j] {
      if i < |a| {
        assert ab[i] == a[i];
      } else {
        assert ab[i] == b[i - |a|];
      }
    }
  }

  lemma ColunasCabecaDistintas()
    ensures Distintos(ColunasCabeca)
  {
  }

  lemma ColunasInfantilFundamentalDistintas()
    ensures Distintos(ColunasInfantilFundamental)
  {
  }

  lemma ColunasMedioEjaDistintas()
    ensures Distintos(ColunasMedioEja)
  {
  }

  lemma ColunasEspecialTecnicoDistintas()
    ensures Distintos(ColunasEspecialTecnico)
  {
  }

  lemma ColunasInfraDistintas()
    ensures Distintos(ColunasInfra)
  {
  }

  lemma ColunasProfCursosDistintas()
    ensures Distintos(ColunasProfCursos)
  {
  }

  lemma Disjuntas01()
    ensures Disjuntos(ColunasCabeca, ColunasInfantilFundamental)
  {
  }

  lemma Disjuntas02()
    ensures Disjuntos(ColunasCabeca, ColunasMedioEja)
  {
  }

  lemma Disjuntas12()
    ensures Disjuntos(ColunasInfantilFundamental, ColunasMedioEja)
  {
  }

  lemma Disjuntas03()
    ensures Disjuntos(ColunasCabeca, ColunasEspecialTecnico)
  {
  }

  lemma Disjuntas13()
    ensures Disjuntos(ColunasInfantilFundamental, ColunasEspecialTecnico)
  {
  }

  lemma Disjuntas23()
    ensures Disjuntos(ColunasMedioEja, ColunasEspecialTecnico)
  {
  }

  lemma Disjuntas04()
    ensures Disjuntos(ColunasCabeca, ColunasInfra)
  {
  }

  lemma Disjuntas14()
    ensures Disjuntos(ColunasInfantilFundamental, ColunasInfra)
  {
  }

  lemma Disjuntas24()
    ensures Disjuntos(ColunasMedioEja, ColunasInfra)
  {
  }

  lemma Disjuntas34()
    ensures Disjuntos(ColunasEspecialTecnico, ColunasInfra)
  {
  }

  lemma Disjuntas05()
    ensures Disjuntos(ColunasCabeca, ColunasProfCursos)
  {
  }

  lemma Disjuntas15()
    ensures Disjuntos(ColunasInfantilFundamental, ColunasProfCursos)
  {
  }

  lemma Disjuntas25()
    ensures Disjuntos(ColunasMedioEja, ColunasProfCursos)
  {
  }

  lemma Disjuntas35()
    ensures Disjuntos(ColunasEspecialTecnico, ColunasProfCursos)
  {
  }

  lemma Disjuntas45()
    ensures Disjuntos(ColunasInfra, ColunasProfCursos)
  {
  }

  /** The 44 column names are pairwise distinct. */
  lemma ColunasDistintas()
    ensures Distintos(ColunasNaOrdem)
  {
    ColunasCabecaDistintas();
    ColunasInfantilFundamentalDistintas();
    ColunasMedioEjaDistintas();
    ColunasEspecialTecnicoDistintas();
    ColunasInfraDistintas();
    ColunasProfCursosDistintas();
    Disjuntas01();
    Disjuntas02();
    Disjuntas12();
    Disjuntas03();
    Disjuntas13();
    Disjuntas23();
    Disjuntas04();
    Disjuntas14();
    Disjuntas24();
    Disjuntas34();
    Disjuntas05();
    Disjuntas15();
    Disjuntas25();
    Disjuntas35();
    Disjuntas45();
    DistintosConcat(ColunasCabeca, ColunasInfantilFundamental);
    DisjuntosConcat(ColunasCabeca, ColunasInfantilFundamental, ColunasMedioEja);
    DistintosConcat(ColunasCabeca + ColunasInfantilFundamental, ColunasMedioEja);
    DisjuntosConcat(ColunasCabeca, ColunasInfantilFundamental, ColunasEspecialTecnico);
    DisjuntosConcat(ColunasCabeca + ColunasInfantilFundamental, ColunasMedioEja, ColunasEspecialTecnico);
    DistintosConcat(ColunasCabeca + ColunasInfantilFundamental + ColunasMedioEja, ColunasEspecialTecnico);
    DisjuntosConcat(ColunasCabeca, ColunasInfantilFundamental, ColunasInfra);
    DisjuntosConcat(ColunasCabeca + ColunasInfantilFundamental, ColunasMedioEja, ColunasInfra);
    DisjuntosConcat(ColunasCabeca + ColunasInfantilFundamental + ColunasMedioEja, ColunasEspecialTecnico, ColunasInfra);
    DistintosConcat(ColunasCabeca + ColunasInfantilFundamental + ColunasMedioEja + ColunasEspecialTecnico, ColunasInfra);
    DisjuntosConcat(ColunasCabeca, ColunasInfantilFundamental, ColunasProfCursos);
    DisjuntosConcat(ColunasCabeca + ColunasInfantilFundamental, ColunasMedioEja, ColunasProfCursos);
    DisjuntosConcat(ColunasCabeca + ColunasInfantilFundamental + ColunasMedioEja, ColunasEspecialTecnico, ColunasProfCursos);
    DisjuntosConcat(ColunasCabeca + ColunasInfantilFundamental + ColunasMedioEja + ColunasEspecialTecnico, ColunasInfra, ColunasProfCursos);
    DistintosConcat(ColunasCabeca + ColunasInfantilFundamental + ColunasMedioEja + ColunasEspecialTecnico + ColunasInfra, ColunasProfCursos);
  }

  /** The CSV holds exactly the columns its loader selects. */
  lemma ColunasComoEsperadas()
    ensures forall c :: c in ColunasNaOrdem <==> c in ColunasEsperadas
  {
  }

  /** The names of `Esquema`, after `estado` and `cidade`, are the columns
      above in their order. */
  lemma ColunasDoEsquema()
    ensures Colunas() == ColunasNaOrdem
  {
    var niveis := Nomes(ColunasNiveis());
    NomesInfantilFundamental();
    NomesMedioEja();
    NomesEspecialTecnico();
    assert niveis == niveis[..8] + niveis[8..16] + niveis[16..];
    NomesInfra();
    NomesProfCursos();
    NomesFixas();
    NomesDoEsquema();
    Juntas(Nomes(Fixas), niveis, Nomes(ColunasGrupo(SubInfra, PrefixoInfra, CamposInfra)),
           Nomes(ColunasGrupo(SubProf, PrefixoProf, CamposProf) + [Cursos]),
           ColunasCabeca, ColunasInfantilFundamental, ColunasMedioEja, ColunasEspecialTecnico,
           ColunasInfra, ColunasProfCursos);
  }

  lemma NomesFixas()
    ensures ["estado", "cidade"] + Nomes(Fixas) == ColunasCabeca
  {
  }

  lemma NomesDoEsquema()
    ensures Nomes(Esquema) == Nomes(Fixas) + Nomes(ColunasNiveis())
                              + Nomes(ColunasGrupo(SubInfra, PrefixoInfra, CamposInfra))
                              + Nomes(ColunasGrupo(SubProf, PrefixoProf, CamposProf) + [Cursos])
  {
    NomesConcat(Fixas, ColunasNiveis());
    NomesConcat(Fixas + ColunasNiveis(), ColunasGrupo(SubInfra, PrefixoInfra, CamposInfra));
    NomesConcat(Fixas + ColunasNiveis() + ColunasGrupo(SubInfra, PrefixoInfra, CamposInfra),
                ColunasGrupo(SubProf, PrefixoProf, CamposProf) + [Cursos]);
    assert Esquema == Fixas + ColunasNiveis() + ColunasGrupo(SubInfra, PrefixoInfra, CamposInfra)
                      + (ColunasGrupo(SubProf, PrefixoProf, CamposProf) + [Cursos]);
  }

  /** The parts put back together. */
  lemma Juntas(fixas: seq<string>, niveis: seq<string>, infra: seq<string>, prof: seq<string>,
               cabeca: seq<string>, a: seq<string>, b: seq<string>, c: seq<string>,
               d: seq<string>, e: seq<string>)
    requires ["estado", "cidade"] + fixas == cabeca
    requires niveis == a + b + c && infra == d && prof == e
    ensures ["estado", "cidade"] + (fixas + niveis + infra + prof) == cabeca + a + b + c + d + e
  {
  }

  /** The four counts of level `i`, named `contagem_nivel`. */
  function NomesDoNivel(i: nat): (r: seq<string>)
    requires i < |Niveis|
    ensures |r| == 4 && forall t :: 0 <= t < 4 ==> r[t] == Contagens[t] + "_" + Niveis[i]
  {
    [Contagens[0] + "_" + Niveis[i], Contagens[1] + "_" + Niveis[i],
     Contagens[2] + "_" + Niveis[i], Contagens[3] + "_" + Niveis[i]]
  }

  lemma NomesNivel(i: nat)
    requires i < |Niveis|
    ensures Nomes(ColunasNiveis())[4 * i..4 * i + 4] == NomesDoNivel(i)
  {
    var r := ColunasNiveis();
    var s := Nomes(r)[4 * i..4 * i + 4];
    var e := NomesDoNivel(i);
    forall t | 0 <= t < 4 ensures s[t] == e[t] {
      assert r[4 * i + t] == PorNivel(i, t);
    }
    assert s == e;
  }

  lemma LiteraisNivel0()
    ensures NomesDoNivel(0) == ColunasInfantilFundamental[..4]
  {
    assert Contagens[0] + "_" + Niveis[0] == "matriculas_infantil";
    assert Contagens[1] + "_" + Niveis[0] == "turmas_infantil";
    assert Contagens[2] + "_" + Niveis[0] == "docentes_infantil";
    assert Contagens[3] + "_" + Niveis[0] == "escolas_infantil";
  }

  lemma LiteraisNivel1()
    ensures NomesDoNivel(1) == ColunasInfantilFundamental[4..]
  {
    assert Contagens[0] + "_" + Niveis[1] == "matriculas_fundamental";
    assert Contagens[1] + "_" + Niveis[1] == "turmas_fundamental";
    assert Contagens[2] + "_" + Niveis[1] == "docentes_fundamental";
    assert Contagens[3] + "_" + Niveis[1] == "escolas_fundamental";
  }

  lemma NomesInfantilFundamental()
    ensures Nomes(ColunasNiveis())[0..8] == ColunasInfantilFundamental
  {
    NomesNivel(0);
    NomesNivel(1);
    LiteraisNivel0();
    LiteraisNivel1();
    assert ColunasInfantilFundamental == ColunasInfantilFundamental[..4] + ColunasInfantilFundamental[4..];
    assert Nomes(ColunasNiveis())[0..8] == Nomes(ColunasNiveis())[0..4] + Nomes(ColunasNiveis())[4..8];
  }

  lemma LiteraisNivel2()
    ensures NomesDoNivel(2) == ColunasMedioEja[..4]
  {
    assert Contagens[0] + "_" + Niveis[2] == "matriculas_medio";
    assert Contagens[1] + "_" + Niveis[2] == "turmas_medio";
    assert Contagens[2] + "_" + Niveis[2] == "docentes_medio";
    assert Contagens[3] + "_" + Niveis[2] == "escolas_medio";
  }

  lemma LiteraisNivel3()
    ensures NomesDoNivel(3) == ColunasMedioEja[4..]
  {
    assert Contagens[0] + "_" + Niveis[3] == "matriculas_eja";
    assert Contagens[1] + "_" + Niveis[3] == "turmas_eja";
    assert Contagens[2] + "_" + Niveis[3] == "docentes_eja";
    assert Contagens[3] + "_" + Niveis[3] == "escolas_eja";
  }

  lemma NomesMedioEja()
    ensures Nomes(ColunasNiveis())[8..16] == ColunasMedioEja
  {
    NomesNivel(2);
    NomesNivel(3);
    LiteraisNivel2();
    LiteraisNivel3();
    assert ColunasMedioEja == ColunasMedioEja[..4] + ColunasMedioEja[4..];
    assert Nomes(ColunasNiveis())[8..16] == Nomes(ColunasNiveis())[8..12] + Nomes(ColunasNiveis())[12..16];
  }

  lemma LiteraisNivel4()
    ensures NomesDoNivel(4) == ColunasEspecialTecnico[..4]
  {
    assert Contagens[0] + "_" + Niveis[4] == "matriculas_especial";
    assert Contagens[1] + "_" + Niveis[4] == "turmas_especial";
    assert Contagens[2] + "_" + Niveis[4] == "docentes_especial";
    assert Contagens[3] + "_" + Niveis[4] == "escolas_especial";
  }

  lemma LiteraisNivel5()
    ensures NomesDoNivel(5) == ColunasEspecialTecnico[4..]
  {
    assert Contagens[0] + "_" + Niveis[5] == "matriculas_tecnico";
    assert Contagens[1] + "_" + Niveis[5] == "turmas_tecnico";
    assert Contagens[2] + "_" + Niveis[5] == "docentes_tecnico";
    assert Contagens[3] + "_" + Niveis[5] == "escolas_tecnico";
  }

  lemma NomesEspecialTecnico()
    ensures Nomes(ColunasNiveis())[16..24] == ColunasEspecialTecnico
  {
    NomesNivel(4);
    NomesNivel(5);
    LiteraisNivel4();
    LiteraisNivel5();
    assert ColunasEspecialTecnico == ColunasEspecialTecnico[..4] + ColunasEspecialTecnico[4..];
    assert Nomes(ColunasNiveis())[16..24] == Nomes(ColunasNiveis())[16..20] + Nomes(ColunasNiveis())[20..24];
  }

  /** `prefixo + campo` for each field. */
  function Prefixados(prefixo: string, campos: seq<string>): (r: seq<string>)
    ensures |r| == |campos| && forall j :: 0 <= j < |campos| ==> r[j] == prefixo + campos[j]
  {
    seq(|campos|, j requires 0 <= j < |campos| => prefixo + campos[j])
  }

  lemma NomesGrupo(sub: string, prefixo: string, campos: seq<string>)
    ensures Nomes(ColunasGrupo(sub, prefixo, campos)) == Prefixados(prefixo, campos)
  {
  }

  lemma LiteraisInfra0()
    ensures forall j :: 0 <= j < 2 ==> PrefixoInfra + CamposInfra[j] == ColunasInfra[j]
  {
    assert PrefixoInfra + CamposInfra[0] == "infra_basica_biblioteca";
    assert PrefixoInfra + CamposInfra[1] == "infra_basica_lab_ciencias";
  }

  lemma LiteraisInfra1()
    ensures forall j :: 2 <= j < 4 ==> PrefixoInfra + CamposInfra[j] == ColunasInfra[j]
  {
    assert PrefixoInfra + CamposInfra[2] == "infra_basica_lab_informatica";
    assert PrefixoInfra + CamposInfra[3] == "infra_basica_cozinha";
  }

  lemma LiteraisInfra2()
    ensures forall j :: 4 <= j < 6 ==> PrefixoInfra + CamposInfra[j] == ColunasInfra[j]
  {
    assert PrefixoInfra + CamposInfra[4] == "infra_basica_refeitorio";
    assert PrefixoInfra + CamposInfra[5] == "infra_basica_quadra_esportes";
  }

  lemma LiteraisInfra3()
    ensures forall j :: 6 <= j < 8 ==> PrefixoInfra + CamposInfra[j] == ColunasInfra[j]
  {
    assert PrefixoInfra + CamposInfra[6] == "infra_basica_internet";
    assert PrefixoInfra + CamposInfra[7] == "infra_basica_acessibilidade_rampas";
  }

  lemma LiteraisInfra()
    ensures Prefixados(PrefixoInfra, CamposInfra) == ColunasInfra
  {
    LiteraisInfra0();
    LiteraisInfra1();
    LiteraisInfra2();
    LiteraisInfra3();
  }

  lemma LiteraisProf0()
    ensures forall j :: 0 <= j < 2 ==> PrefixoProf + CamposProf[j] == ColunasProfCursos[j]
  {
    assert PrefixoProf + CamposProf[0] == "prof_basica_professores_pedagogia";
    assert PrefixoProf + CamposProf[1] == "prof_basica_coordenadores";
  }

  lemma LiteraisProf()
    ensures Prefixados(PrefixoProf, CamposProf) + [Cursos.nome] == ColunasProfCursos
  {
    LiteraisProf0();
    assert PrefixoProf + CamposProf[2] == "prof_basica_monitores";
  }

  lemma NomesInfra()
    ensures Nomes(ColunasGrupo(SubInfra, PrefixoInfra, CamposInfra)) == ColunasInfra
  {
    NomesGrupo(SubInfra, PrefixoInfra, CamposInfra);
    LiteraisInfra();
  }

  lemma NomesProfCursos()
    ensures Nomes(ColunasGrupo(SubProf, PrefixoProf, CamposProf) + [Cursos]) == ColunasProfCursos
  {
    NomesGrupo(SubProf, PrefixoProf, CamposProf);
    NomesConcat(ColunasGrupo(SubProf, PrefixoProf, CamposProf), [Cursos]);
    LiteraisProf();
  }

  // ---------------------------------------------------------------------
  // What a row holds
  // ---------------------------------------------------------------------

  /** The row exists exactly when no `.get` raises. */
  lemma LinhaDeExiste(cols: seq<Coluna>, uf: string, cidade: string, info: Value)
    ensures LinhaDe(cols, uf, cidade, info).Some?
            <==> forall j :: 0 <= j < |cols| ==> Seguir(info, cols[j].caminho, cols[j].padrao).Some?
  {
    ColetadosLidos(Lidos(info, cols), |cols|);
  }

  /** The assignments after `estado` and `cidade`: one per column, with
      what its lookups yield. */
  lemma ColetadosForma(info: Value, cols: seq<Coluna>)
    requires Coletados(Lidos(info, cols), |cols|).Some?
    ensures forall j :: 0 <= j < |cols| ==> Seguir(info, cols[j].caminho, cols[j].padrao).Some?
    ensures var xs := Coletados(Lidos(info, cols), |cols|).value;
            |xs| == |cols| && Keys(xs) == Nomes(cols)
            && forall j :: 0 <= j < |cols| ==> xs[j] == (cols[j].nome, Seguir(info, cols[j].caminho, cols[j].padrao).value)
  {
    ColetadosLidos(Lidos(info, cols), |cols|);
  }

  /** The assignments: `estado`, `cidade`, then each column with what its
      lookups yield. */
  lemma ItensDeForma(cols: seq<Coluna>, uf: string, cidade: string, info: Value)
    requires ItensDe(cols, uf, cidade, info).Some?
    ensures forall j :: 0 <= j < |cols| ==> Seguir(info, cols[j].caminho, cols[j].padrao).Some?
    ensures var itens := ItensDe(cols, uf, cidade, info).value;
            |itens| == 2 + |cols| && Keys(itens) == ["estado", "cidade"] + Nomes(cols)
            && itens[0] == ("estado", VStr(uf)) && itens[1] == ("cidade", VStr(cidade))
            && forall j :: 0 <= j < |cols| ==>
                 itens[j + 2] == (cols[j].nome, Seguir(info, cols[j].caminho, cols[j].padrao).value)
  {
    ColetadosForma(info, cols);
    KeysConcat(Cabecalho(uf, cidade), Coletados(Lidos(info, cols), |cols|).value);
  }

  lemma KeysConcat(a: seq<(string, Value)>, b: seq<(string, Value)>)
    ensures Keys(a + b) == Keys(a) + Keys(b)
  {
  }

  /** With distinct column names every key is written once, so the row is
      its assignments in order. */
  lemma LinhaDeItens(cols: seq<Coluna>, uf: string, cidade: string, info: Value)
    requires Distintos(["estado", "cidade"] + Nomes(cols))
    ensures LinhaDe(cols, uf, cidade, info) == ItensDe(cols, uf, cidade, info)
  {
    if ItensDe(cols, uf, cidade, info).Some? {
      var itens := ItensDe(cols, uf, cidade, info).value;
      ItensDeForma(cols, uf, cidade, info);
      ItensNaOrdem(itens, ["estado", "cidade"] + Nomes(cols));
      FromItemsOfUnique(itens);
    }
  }

  /** The row: `estado`, `cidade`, then each column with what its lookups
      yield. */
  lemma LinhaDeForma(cols: seq<Coluna>, uf: string, cidade: string, info: Value)
    requires LinhaDe(cols, uf, cidade, info).Some?
    requires Distintos(["estado", "cidade"] + Nomes(cols))
    ensures forall j :: 0 <= j < |cols| ==> Seguir(info, cols[j].caminho, cols[j].padrao).Some?
    ensures var linha := LinhaDe(cols, uf, cidade, info).value;
            |linha| == 2 + |cols| && Keys(linha) == ["estado", "cidade"] + Nomes(cols)
            && linha[0] == ("estado", VStr(uf)) && linha[1] == ("cidade", VStr(cidade))
            && forall j :: 0 <= j < |cols| ==>
                 linha[j + 2] == (cols[j].nome, Seguir(info, cols[j].caminho, cols[j].padrao).value)
  {
    LinhaDeItens(cols, uf, cidade, info);
    ItensDeForma(cols, uf, cidade, info);
  }

  /** Items whose keys are distinct names are written once each. */
  lemma ItensNaOrdem(itens: seq<(string, Value)>, nomes: seq<string>)
    requires Keys(itens) == nomes && Distintos(nomes)
    ensures UniqueKeys(itens)
  {
    forall i, j | 0 <= i < j < |itens| ensures itens[i].0 != itens[j].0 {
      assert nomes[i] != nomes[j];
    }
  }

  /** The 44 names are distinct. */
  lemma ColunasUnicas()
    ensures Distintos(["estado", "cidade"] + Nomes(Esquema))
  {
    ColunasDoEsquema();
    ColunasDistintas();
  }

  /** A city's row exists exactly when none of its lookups raises. */
  lemma LinhaExiste(uf: string, cidade: string, info: Value)
    ensures LinhaEsperada(uf, cidade, info).Some?
            <==> forall j :: 0 <= j < |Esquema| ==> Seguir(info, Esquema[j].caminho, Esquema[j].padrao).Some?
  {
    LinhaDeExiste(Esquema, uf, cidade, info);
  }

  /** Every row has the 44 columns, in the order they are filled, and
      starts with `estado` and `cidade` from the grouping keys. */
  lemma LinhaColunas(uf: string, cidade: string, info: Value)
    requires LinhaEsperada(uf, cidade, info).Some?
    ensures var linha := LinhaEsperada(uf, cidade, info).value;
            Keys(linha) == ColunasNaOrdem
            && linha[0] == ("estado", VStr(uf)) && linha[1] == ("cidade", VStr(cidade))
  {
    ColunasUnicas();
    LinhaDeForma(Esquema, uf, cidade, info);
    ColunasDoEsquema();
  }

  /** After `estado` and `cidade`, each column holds what its lookups
      yield. */
  lemma LinhaValores(uf: string, cidade: string, info: Value)
    requires LinhaEsperada(uf, cidade, info).Some?
    ensures forall j :: 0 <= j < |Esquema| ==> Seguir(info, Esquema[j].caminho, Esquema[j].padrao).Some?
    ensures var linha := LinhaEsperada(uf, cidade, info).value;
            |linha| == 2 + |Esquema|
            && forall j :: 0 <= j < |Esquema| ==>
                 linha[j + 2] == (Esquema[j].nome, Seguir(info, Esquema[j].caminho, Esquema[j].padrao).value)
  {
    ColunasUnicas();
    LinhaDeForma(Esquema, uf, cidade, info);
  }

  /** A record without the first key of a column's path gets the column's
      default: 0 for the counts, None for `codigo_ibge`. */
  lemma LinhaPadrao(uf: string, cidade: string, info: Dict<string, Value>, j: nat)
    requires LinhaEsperada(uf, cidade, VDict(info)).Some?
    requires j < |Esquema| && !HasKey(info, Esquema[j].caminho[0])
    ensures var linha := LinhaEsperada(uf, cidade, VDict(info)).value;
            j + 2 < |linha| && linha[j + 2] == (Esquema[j].nome, Esquema[j].padrao)
  {
    var c := Esquema[j];
    LinhaValores(uf, cidade, VDict(info));
    SeguirAusente(info, c.caminho, c.padrao);
  }

  // ---------------------------------------------------------------------
  // Every row, in the order of `dados.items()` and `cidades.items()`
  // ---------------------------------------------------------------------

  /** Builds the row of one city from its state, its name and its record. */
  type Montagem = (string, string, Value) -> Option<Dict<string, Value>>

  /** The rows of the first `n` cities of one state; None once one raises. */
  function LinhasCidades(montar: Montagem, uf: string, cidades: Dict<string, Value>, n: nat): Option<seq<Dict<string, Value>>>
    requires n <= |cidades|
  {
    if n == 0 then Some([])
    else
      match LinhasCidades(montar, uf, cidades, n - 1)
      case None => None
      case Some(ls) =>
        match montar(uf, cidades[n - 1].0, cidades[n - 1].1)
        case None => None
        case Some(l) => Some(ls + [l])
  }

  /** The rows of the first `n` states; None once `cidades.items()` or a
      row raises. */
  function LinhasEstados(montar: Montagem, estados: Dict<string, Value>, n: nat): Option<seq<Dict<string, Value>>>
    requires n <= |estados|
  {
    if n == 0 then Some([])
    else
      match LinhasEstados(montar, estados, n - 1)
      case None => None
      case Some(ls) =>
        match estados[n - 1].1
        case VDict(cidades) =>
          (match LinhasCidades(montar, estados[n - 1].0, cidades, |cidades|)
           case None => None
           case Some(lc) => Some(ls + lc))
        case _ => None
  }

  /** The (state, city, record) triples the two loops visit, in order. */
  function EntradasCidades(uf: string, cidades: Dict<string, Value>, n: nat): (r: seq<(string, string, Value)>)
    requires n <= |cidades|
    ensures |r| == n
    ensures forall i :: 0 <= i < n ==> r[i] == (uf, cidades[i].0, cidades[i].1)
  {
    if n == 0 then [] else EntradasCidades(uf, cidades, n - 1) + [(uf, cidades[n - 1].0, cidades[n - 1].1)]
  }

  function Entradas(estados: Dict<string, Value>, n: nat): seq<(string, string, Value)>
    requires n <= |estados|
  {
    if n == 0 then []
    else
      Entradas(estados, n - 1)
      + match estados[n - 1].1
        case VDict(cidades) => EntradasCidades(estados[n - 1].0, cidades, |cidades|)
        case _ => []
  }

  /** `linhas` once the loops are done; None when `dados.items()` raises. */
  function Linhas(dados: Value): Option<seq<Dict<string, Value>>> {
    match dados
    case VDict(estados) => LinhasEstados(LinhaEsperada, estados, |estados|)
    case _ => None
  }

  /** Every visited triple gets a row. */
  predicate TodasMontam(montar: Montagem, es: seq<(string, string, Value)>) {
    forall i :: 0 <= i < |es| ==> montar(es[i].0, es[i].1, es[i].2).Some?
  }

  /** `ls` holds the rows of the visited triples, one each, in order. */
  predicate MontadasDe(montar: Montagem, es: seq<(string, string, Value)>, ls: seq<Dict<string, Value>>) {
    |ls| == |es| && forall i :: 0 <= i < |es| ==> montar(es[i].0, es[i].1, es[i].2) == Some(ls[i])
  }

  lemma TodasMontamConcat(montar: Montagem, a: seq<(string, string, Value)>, b: seq<(string, string, Value)>)
    ensures TodasMontam(montar, a + b) <==> TodasMontam(montar, a) && TodasMontam(montar, b)
  {
    if TodasMontam(montar, a + b) {
      forall i | 0 <= i < |a| ensures montar(a[i].0, a[i].1, a[i].2).Some? {
        assert (a + b)[i] == a[i];
      }
      forall i | 0 <= i < |b| ensures montar(b[i].0, b[i].1, b[i].2).Some? {
        assert (a + b)[|a| + i] == b[i];
      }
    }
    if TodasMontam(montar, a) && TodasMontam(montar, b) {
      forall i | 0 <= i < |a + b| ensures montar((a + b)[i].0, (a + b)[i].1, (a + b)[i].2).Some? {
        if i >= |a| {
          assert (a + b)[i] == b[i - |a|];
        }
      }
    }
  }

  lemma MontadasConcat(montar: Montagem, a: seq<(string, string, Value)>, b: seq<(string, string, Value)>,
                       la: seq<Dict<string, Value>>, lb: seq<Dict<string, Value>>)
    requires MontadasDe(montar, a, la) && MontadasDe(montar, b, lb)
    ensures MontadasDe(montar, a + b, la + lb)
  {
  }

  /** The state's rows are there exactly when every city's row is, and row
      `i` is the row of city `i`. */
  lemma {:induction false} LinhasCidadesDe(montar: Montagem, uf: string, cidades: Dict<string, Value>, n: nat)
    requires n <= |cidades|
    ensures LinhasCidades(montar, uf, cidades, n).Some? <==> TodasMontam(montar, EntradasCidades(uf, cidades, n))
    ensures LinhasCidades(montar, uf, cidades, n).Some? ==>
              MontadasDe(montar, EntradasCidades(uf, cidades, n), LinhasCidades(montar, uf, cidades, n).value)
  {
    if n > 0 {
      LinhasCidadesDe(montar, uf, cidades, n - 1);
    }
  }

  /** The first `n` states each map to a dict of cities. */
  predicate TodosDicts(estados: Dict<string, Value>, n: nat)
    requires n <= |estados|
  {
    forall e :: 0 <= e < n ==> estados[e].1.VDict?
  }

  /** Every state's value must be a dict, and then the rows are those of
      the visited triples, in order. */
  lemma {:induction false} LinhasEstadosDe(montar: Montagem, estados: Dict<string, Value>, n: nat)
    requires n <= |estados|
    ensures LinhasEstados(montar, estados, n).Some?
            <==> TodosDicts(estados, n) && TodasMontam(montar, Entradas(estados, n))
    ensures LinhasEstados(montar, estados, n).Some? ==>
              MontadasDe(montar, Entradas(estados, n), LinhasEstados(montar, estados, n).value)
  {
    if n > 0 {
      LinhasEstadosDe(montar, estados, n - 1);
      if estados[n - 1].1.VDict? {
        EstadoPasso(montar, estados, n);
      } else {
        assert !TodosDicts(estados, n);
      }
    }
  }

  /** One state whose value is a dict: its cities' triples and rows follow
      the earlier states'. */
  lemma EstadoPasso(montar: Montagem, estados: Dict<string, Value>, n: nat)
    requires 0 < n <= |estados| && estados[n - 1].1.VDict?
    requires LinhasEstados(montar, estados, n - 1).Some?
             <==> TodosDicts(estados, n - 1) && TodasMontam(montar, Entradas(estados, n - 1))
    requires LinhasEstados(montar, estados, n - 1).Some? ==>
               MontadasDe(montar, Entradas(estados, n - 1), LinhasEstados(montar, estados, n - 1).value)
    ensures LinhasEstados(montar, estados, n).Some?
            <==> TodosDicts(estados, n) && TodasMontam(montar, Entradas(estados, n))
    ensures LinhasEstados(montar, estados, n).Some? ==>
              MontadasDe(montar, Entradas(estados, n), LinhasEstados(montar, estados, n).value)
  {
    var antes := Entradas(estados, n - 1);
    var uf := estados[n - 1].0;
    var cidades := estados[n - 1].1.entries;
    LinhasCidadesDe(montar, uf, cidades, |cidades|);
    var novas := EntradasCidades(uf, cidades, |cidades|);
    assert Entradas(estados, n) == antes + novas;
    TodasMontamConcat(montar, antes, novas);
    assert TodosDicts(estados, n) <==> TodosDicts(estados, n - 1);
    if LinhasEstados(montar, estados, n).Some? {
      MontadasConcat(montar, antes, novas, LinhasEstados(montar, estados, n - 1).value,
                     LinhasCidades(montar, uf, cidades, |cidades|).value);
    }
  }

  /** Once a row raises, the state raises. */
  lemma {:induction false} LinhasCidadesFalha(montar: Montagem, uf: string, cidades: Dict<string, Value>, k: nat, m: nat)
    requires k <= m <= |cidades| && LinhasCidades(montar, uf, cidades, k).None?
    ensures LinhasCidades(montar, uf, cidades, m).None?
    decreases m - k
  {
    if k < m {
      LinhasCidadesFalha(montar, uf, cidades, k + 1, m);
    }
  }

  /** Once a state raises, the run raises. */
  lemma {:induction false} LinhasEstadosFalha(montar: Montagem, estados: Dict<string, Value>, k: nat, m: nat)
    requires k <= m <= |estados| && LinhasEstados(montar, estados, k).None?
    ensures LinhasEstados(montar, estados, m).None?
    decreases m - k
  {
    if k < m {
      LinhasEstadosFalha(montar, estados, k + 1, m);
    }
  }

  // ---------------------------------------------------------------------
  // The integer columns
  // ---------------------------------------------------------------------

  /** `pd.to_numeric(v, errors="coerce")`, then `fillna(0).astype(int)`, on
      one JSON value: integers stay, booleans are 0/1, decimal strings are
      parsed, anything else becomes 0. */
  function Numerico(v: Value): int {
    SidraConsulta.IntDe(v).GetOr(0)
  }

  /** The columns the loop leaves as they are. */
  const NaoNumericas: seq<string> := ["estado", "cidade"]

  /** One cell after the loop has reached its column. */
  function Coagido(item: (string, Value)): (string, Value) {
    if item.0 in NaoNumericas then item else (item.0, VInt(Numerico(item.1)))
  }

  /** A row once the first `k` columns have been converted. */
  function CoagidaAte(linha: Dict<string, Value>, k: nat): (r: Dict<string, Value>)
    requires k <= |linha|
    ensures |r| == |linha|
    ensures forall j :: 0 <= j < |linha| ==> r[j] == if j < k then Coagido(linha[j]) else linha[j]
  {
    seq(|linha|, j requires 0 <= j < |linha| => if j < k then Coagido(linha[j]) else linha[j])
  }

  /** A row once every column has been converted. */
  function Coagida(linha: Dict<string, Value>): Dict<string, Value> {
    CoagidaAte(linha, |linha|)
  }

  /** What the run writes: the rows of `linhas`, converted; None when
      anything raised. */
  function Tabela(dados: Value): Option<seq<Dict<string, Value>>> {
    match Linhas(dados)
    case None => None
    case Some(ls) => Some(seq(|ls|, i requires 0 <= i < |ls| => Coagida(ls[i])))
  }

  /** Converting column `k` changes cell `k` and nothing else. */
  lemma CoagidaPasso(linha: Dict<string, Value>, k: nat)
    requires k < |linha|
    ensures CoagidaAte(linha, k)[k] == linha[k]
    ensures CoagidaAte(linha, k + 1) == CoagidaAte(linha, k)[k := Coagido(linha[k])]
  {
  }

  /** `for col in df.columns: if col not in ["estado", "cidade"]: df[col] = ...`:
      the frame is kept as its rows, whose keys are the frame's columns. */
  method CoagirColunas(linhas: seq<Dict<string, Value>>, colunas: seq<string>) returns (r: seq<Dict<string, Value>>)
    requires forall i :: 0 <= i < |linhas| ==> Keys(linhas[i]) == colunas
    ensures |r| == |linhas| && forall i :: 0 <= i < |linhas| ==> r[i] == Coagida(linhas[i])
  {
    r := linhas;
    for k := 0 to |colunas|
      invariant |r| == |linhas|
      invariant forall i :: 0 <= i < |linhas| ==> r[i] == CoagidaAte(linhas[i], k)
    {
      if colunas[k] !in NaoNumericas {
        for i := 0 to |r|
          invariant |r| == |linhas|
          invariant forall i' :: 0 <= i' < i ==> r[i'] == CoagidaAte(linhas[i'], k + 1)
          invariant forall i' :: i <= i' < |r| ==> r[i'] == CoagidaAte(linhas[i'], k)
        {
          CoagidaPasso(linhas[i], k);
          r := r[i := r[i][k := (colunas[k], VInt(Numerico(r[i][k].1)))]];
        }
      } else {
        forall i | 0 <= i < |linhas| ensures CoagidaAte(linhas[i], k + 1) == CoagidaAte(linhas[i], k) {
          CoagidaPasso(linhas[i], k);
        }
      }
    }
  }

  // ---------------------------------------------------------------------
  // run()
  // ---------------------------------------------------------------------

  /** Every row of the run has the 44 columns, in order. */
  lemma LinhasColunas(estados: Dict<string, Value>)
    ensures LinhasEstados(LinhaEsperada, estados, |estados|).Some? ==>
              forall i :: 0 <= i < |LinhasEstados(LinhaEsperada, estados, |estados|).value| ==>
                Keys(LinhasEstados(LinhaEsperada, estados, |estados|).value[i]) == ColunasNaOrdem
  {
    var es := Entradas(estados, |estados|);
    LinhasEstadosDe(LinhaEsperada, estados, |estados|);
    forall i | 0 <= i < |es| && LinhaEsperada(es[i].0, es[i].1, es[i].2).Some?
      ensures Keys(LinhaEsperada(es[i].0, es[i].1, es[i].2).value) == ColunasNaOrdem
    {
      LinhaColunas(es[i].0, es[i].1, es[i].2);
    }
  }

  /** One more city: its row is appended, or the state raises. */
  lemma PassoCidade(uf: string, cidades: Dict<string, Value>, c: nat, linhas: seq<Dict<string, Value>>,
                    linha: Option<Dict<string, Value>>)
    requires c < |cidades| && LinhasCidades(LinhaEsperada, uf, cidades, c) == Some(linhas)
    requires linha == LinhaEsperada(uf, cidades[c].0, cidades[c].1)
    ensures linha.None? ==> LinhasCidades(LinhaEsperada, uf, cidades, |cidades|).None?
    ensures linha.Some? ==> LinhasCidades(LinhaEsperada, uf, cidades, c + 1) == Some(linhas + [linha.value])
  {
    if linha.None? {
      LinhasCidadesFalha(LinhaEsperada, uf, cidades, c + 1, |cidades|);
    }
  }

  /** The rows of one state: the inner loop, over `cidades.items()`. */
  method LinhasDoEstado(uf: string, cidades: Dict<string, Value>) returns (r: Option<seq<Dict<string, Value>>>)
    ensures r == LinhasCidades(LinhaEsperada, uf, cidades, |cidades|)
  {
    var linhas: seq<Dict<string, Value>> := [];
    for c := 0 to |cidades|
      invariant LinhasCidades(LinhaEsperada, uf, cidades, c) == Some(linhas)
    {
      var linha := MontarLinha(uf, cidades[c].0, cidades[c].1);
      PassoCidade(uf, cidades, c, linhas, linha);
      if linha.None? {
        return None;
      }
      linhas := linhas + [linha.value];
    }
    return Some(linhas);
  }

  /** The loops over `dados.items()` and `cidades.items()`, then the
      conversion of the frame; None where the `try` catches an exception. */
  method Run(dados: Value) returns (r: Option<seq<Dict<string, Value>>>)
    ensures r == Tabela(dados)
  {
    if !dados.VDict? {
      return None;
    }
    var estados := dados.entries;
    var linhas: seq<Dict<string, Value>> := [];
    for e := 0 to |estados|
      invariant LinhasEstados(LinhaEsperada, estados, e) == Some(linhas)
    {
      if !estados[e].1.VDict? {
        LinhasEstadosFalha(LinhaEsperada, estados, e + 1, |estados|);
        return None;
      }
      var doEstado := LinhasDoEstado(estados[e].0, estados[e].1.entries);
      if doEstado.None? {
        LinhasEstadosFalha(LinhaEsperada, estados, e + 1, |estados|);
        return None;
      }
      linhas := linhas + doEstado.value;
    }
    LinhasColunas(estados);
    var colunas := if |linhas| == 0 then [] else Keys(linhas[0]);
    var t := CoagirColunas(linhas, colunas);
    assert t == seq(|linhas|, i requires 0 <= i < |linhas| => Coagida(linhas[i]));
    return Some(t);
  }

  // ---------------------------------------------------------------------
  // What the run writes
  // ---------------------------------------------------------------------

  /** The conversion keeps the columns, leaves `estado` and `cidade` alone
      and makes every other cell an integer. */
  lemma CoagidaDe(linha: Dict<string, Value>)
    ensures Keys(Coagida(linha)) == Keys(linha)
    ensures forall j :: 0 <= j < |linha| && linha[j].0 in NaoNumericas ==> Coagida(linha)[j] == linha[j]
    ensures forall j :: 0 <= j < |linha| && linha[j].0 !in NaoNumericas ==>
              Coagida(linha)[j] == (linha[j].0, VInt(Numerico(linha[j].1)))
  {
  }

  /** Converting twice is converting once. */
  lemma CoagidaIdempotente(linha: Dict<string, Value>)
    ensures Coagida(Coagida(linha)) == Coagida(linha)
  {
    var c := Coagida(linha);
    forall j | 0 <= j < |linha| ensures Coagida(c)[j] == c[j] {
      if linha[j].0 !in NaoNumericas {
        assert Numerico(VInt(Numerico(linha[j].1))) == Numerico(linha[j].1);
      }
    }
  }

  /** A count written as decimal text is read back as that count. */
  lemma NumericoDeTexto(i: int)
    ensures Numerico(VStr(IntToStr(i))) == i
  {
    SidraConsulta.ParseIntOfIntToStr(i);
  }

  /** The row of one city as written: the 44 columns, the state and the
      city, and each other column the integer its lookups yield. */
  lemma LinhaEscrita(uf: string, cidade: string, info: Value, linha: Dict<string, Value>)
    requires LinhaEsperada(uf, cidade, info) == Some(linha)
    ensures forall j :: 0 <= j < |Esquema| ==> Seguir(info, Esquema[j].caminho, Esquema[j].padrao).Some?
    ensures var escrita := Coagida(linha);
            Keys(escrita) == ColunasNaOrdem
            && escrita[0] == ("estado", VStr(uf)) && escrita[1] == ("cidade", VStr(cidade))
            && forall j :: 0 <= j < |Esquema| ==>
                 escrita[j + 2]
                 == (Esquema[j].nome, VInt(Numerico(Seguir(info, Esquema[j].caminho, Esquema[j].padrao).value)))
  {
    LinhaColunas(uf, cidade, info);
    LinhaValores(uf, cidade, info);
    ColunasDistintas();
    CoagidaCabecalho(linha);
  }

  /** A row that starts with `estado` and `cidade` and names no column
      twice keeps those two and makes every later cell an integer. */
  lemma CoagidaCabecalho(linha: Dict<string, Value>)
    requires |linha| >= 2 && linha[0].0 == "estado" && linha[1].0 == "cidade" && Distintos(Keys(linha))
    ensures Keys(Coagida(linha)) == Keys(linha)
    ensures Coagida(linha)[0] == linha[0] && Coagida(linha)[1] == linha[1]
    ensures forall k :: 2 <= k < |linha| ==> Coagida(linha)[k] == (linha[k].0, VInt(Numerico(linha[k].1)))
  {
    CoagidaDe(linha);
    forall k | 2 <= k < |linha| ensures linha[k].0 !in NaoNumericas {
      assert Keys(linha)[k] != Keys(linha)[0] && Keys(linha)[k] != Keys(linha)[1];
    }
  }

  /** The run writes something exactly when `dados` and every state's
      value are dicts and no row raises. */
  lemma TabelaExiste(dados: Value)
    ensures Tabela(dados).Some?
            <==> dados.VDict?
                 && TodosDicts(dados.entries, |dados.entries|)
                 && TodasMontam(LinhaEsperada, Entradas(dados.entries, |dados.entries|))
  {
    if dados.VDict? {
      LinhasEstadosDe(LinhaEsperada, dados.entries, |dados.entries|);
    }
  }

  /** One row per (state, city) pair, in the order of the two loops, each
      as `LinhaEscrita` describes it. */
  lemma TabelaLinhas(dados: Value)
    requires Tabela(dados).Some?
    ensures dados.VDict?
    ensures var t, es := Tabela(dados).value, Entradas(dados.entries, |dados.entries|);
            |t| == |es|
            && forall i :: 0 <= i < |t| ==>
                 LinhaEsperada(es[i].0, es[i].1, es[i].2).Some?
                 && t[i] == Coagida(LinhaEsperada(es[i].0, es[i].1, es[i].2).value)
                 && Keys(t[i]) == ColunasNaOrdem
                 && t[i][0] == ("estado", VStr(es[i].0)) && t[i][1] == ("cidade", VStr(es[i].1))
  {
    var es := Entradas(dados.entries, |dados.entries|);
    LinhasEstadosDe(LinhaEsperada, dados.entries, |dados.entries|);
    var ls := LinhasEstados(LinhaEsperada, dados.entries, |dados.entries|).value;
    forall i | 0 <= i < |es|
      ensures Keys(Coagida(ls[i])) == ColunasNaOrdem
      ensures Coagida(ls[i])[0] == ("estado", VStr(es[i].0)) && Coagida(ls[i])[1] == ("cidade", VStr(es[i].1))
    {
      LinhaEscrita(es[i].0, es[i].1, es[i].2, ls[i]);
    }
  }
}
