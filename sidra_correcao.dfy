/**
  The SIDRA scraper's post-processing, `corrigir_e_salvar_json`, which both
  copies (scraper/core and backend/scraping) write the same way:

  1. every raw key loses a trailing "(População residente estimada)" with
     the blanks before it, and is stripped; a later raw entry whose name
     comes out the same replaces an earlier one;
  2. names of the form "Cidade (UF)" are grouped under their state; every
     other name is counted as an error and dropped;
  3. states, and the cities of each state, are sorted by name.

  Reading and writing the JSON files and the log lines are not modelled:
  the raw file is a parameter and the processed dict and error count are
  the results.
*/
module SidraCorrecao {
  import opened Wrappers
  import opened PyText
  import opened PyDict
  import opened PyValue

  // ---------------------------------------------------------------------
  // The name correction: re.sub(r"\s*\(População residente estimada\)$", "", nome).strip()
  // ---------------------------------------------------------------------

  const SufixoEstimada: string := "(População residente estimada)"

  predicate TerminaCom(s: string, sufixo: string) {
    |sufixo| <= |s| && s[|s| - |sufixo|..] == sufixo
  }

  /** Start of the run of whitespace that ends at `fim`. */
  function InicioEspacos(s: string, fim: nat): (p: nat)
    requires fim <= |s|
    ensures p <= fim
    ensures forall k :: p <= k < fim ==> IsSpace(s[k])
    ensures p == 0 || !IsSpace(s[p - 1])
  {
    if fim == 0 || !IsSpace(s[fim - 1]) then fim else InicioEspacos(s, fim - 1)
  }

  /** The substitution: `$` matches at the end and just before a final
      newline, and the leftmost match takes the whole blank run before the
      suffix. */
  function SemSufixo(s: string): string {
    var n := |SufixoEstimada|;
    if TerminaCom(s, SufixoEstimada) then s[..InicioEspacos(s, |s| - n)]
    else if s != [] && s[|s| - 1] == '\n' && TerminaCom(s[..|s| - 1], SufixoEstimada) then
      s[..InicioEspacos(s, |s| - 1 - n)] + "\n"
    else s
  }

  function NomeCorrigido(s: string): string {
    Strip(SemSufixo(s))
  }

  /** A stripped name followed by a blank and the suffix comes back as the
      name. */
  lemma NomeCorrigidoDeEstimada(nome: string)
    requires IsStripped(nome)
    ensures NomeCorrigido(nome + " " + SufixoEstimada) == nome
  {
    var s := nome + " " + SufixoEstimada;
    assert s[|s| - |SufixoEstimada|..] == SufixoEstimada;
    assert s[|nome|] == ' ';
    assert InicioEspacos(s, |nome| + 1) == InicioEspacos(s, |nome|);
    if nome != [] {
      assert s[|nome| - 1] == nome[|nome| - 1];
    }
    assert InicioEspacos(s, |nome|) == |nome|;
    assert s[..|nome|] == nome;
    StripOfStripped(nome);
  }

  /** A stripped name without the suffix is left as it is. */
  lemma NomeCorrigidoSemSufixo(nome: string)
    requires IsStripped(nome) && !TerminaCom(nome, SufixoEstimada)
    ensures NomeCorrigido(nome) == nome
  {
    StripOfStripped(nome);
  }

  // ---------------------------------------------------------------------
  // re.match(r"^(.*) \((\w{2})\)$", nome_completo)
  // ---------------------------------------------------------------------

  /** `" (XY)"` with two word characters, from position `k` to the end. */
  predicate CaudaUf(s: string, k: int) {
    0 <= k && k + 5 == |s| && s[k] == ' ' && s[k + 1] == '(' && IsWordChar(s[k + 2])
    && IsWordChar(s[k + 3]) && s[k + 4] == ')'
  }

  /** The groups `(cidade, uf)` of the match, or None. `.` stops at a
      newline, and `$` also matches before a final newline. */
  function Casamento(s: string): Option<(string, string)> {
    if |s| >= 5 && CaudaUf(s, |s| - 5) && '\n' !in s[..|s| - 5] then
      Some((s[..|s| - 5], s[|s| - 3..|s| - 1]))
    else if |s| >= 6 && s[|s| - 1] == '\n' && CaudaUf(s[..|s| - 1], |s| - 6) && '\n' !in s[..|s| - 6] then
      Some((s[..|s| - 6], s[|s| - 4..|s| - 2]))
    else None
  }

  /** Every city without a newline and every two-word-character state
      give back their own name. */
  lemma CasamentoDeNome(cidade: string, uf: string)
    requires '\n' !in cidade && |uf| == 2 && IsWordChar(uf[0]) && IsWordChar(uf[1])
    ensures Casamento(cidade + " (" + uf + ")") == Some((cidade, uf))
  {
    var s := cidade + " (" + uf + ")";
    assert s[..|s| - 5] == cidade;
    assert s[|s| - 3..|s| - 1] == uf;
  }

  /** A match is exactly such a name, possibly followed by one newline; on
      a stripped name, exactly such a name. */
  lemma NomeDeCasamento(s: string)
    requires Casamento(s).Some?
    ensures var (cidade, uf) := Casamento(s).value;
            '\n' !in cidade && |uf| == 2 && IsWordChar(uf[0]) && IsWordChar(uf[1])
            && (s == cidade + " (" + uf + ")" || s == cidade + " (" + uf + ")" + "\n")
    ensures IsStripped(s) ==> s == Casamento(s).value.0 + " (" + Casamento(s).value.1 + ")"
  {
    if |s| >= 5 && CaudaUf(s, |s| - 5) && '\n' !in s[..|s| - 5] {
      assert s == s[..|s| - 5] + " (" + s[|s| - 3..|s| - 1] + ")";
    } else {
      var t := s[..|s| - 1];
      assert t == s[..|s| - 6] + " (" + s[|s| - 4..|s| - 2] + ")";
      assert s == t + "\n";
    }
  }

  // ---------------------------------------------------------------------
  // sorted()
  // ---------------------------------------------------------------------

  /** Items in strictly increasing key order. */
  predicate Crescente<V>(xs: seq<(string, V)>) {
    forall i, j :: 0 <= i < j < |xs| ==> Less(xs[i].0, xs[j].0)
  }

  /** Place `x` before the first item with a larger key. */
  function Inserir<V>(x: (string, V), ys: seq<(string, V)>): (r: seq<(string, V)>)
    ensures multiset(r) == multiset(ys) + multiset{x}
  {
    if ys == [] then [x]
    else if Less(x.0, ys[0].0) then [x] + ys
    else
      assert ys == [ys[0]] + ys[1..];
      [ys[0]] + Inserir(x, ys[1..])
  }

  /** `sorted(d.items())` on a dict: its keys are distinct, so only they are
      ever compared. */
  function Ordenar<V>(xs: seq<(string, V)>): (r: seq<(string, V)>)
    ensures multiset(r) == multiset(xs)
  {
    if xs == [] then []
    else
      assert xs == [xs[0]] + xs[1..];
      Inserir(xs[0], Ordenar(xs[1..]))
  }

  lemma {:induction false} InserirCrescente<V>(x: (string, V), ys: seq<(string, V)>)
    requires Crescente(ys) && forall y :: y in ys ==> y.0 != x.0
    ensures Crescente(Inserir(x, ys))
  {
    if ys == [] {
    } else if Less(x.0, ys[0].0) {
      var r := [x] + ys;
      forall i, j | 0 <= i < j < |r| ensures Less(r[i].0, r[j].0) {
        if i == 0 && j > 1 {
          LessTransitive(x.0, ys[0].0, ys[j - 1].0);
        }
      }
    } else {
      LessTotal(x.0, ys[0].0);
      InserirCrescente(x, ys[1..]);
      var resto := Inserir(x, ys[1..]);
      var r := [ys[0]] + resto;
      forall i, j | 0 <= i < j < |r| ensures Less(r[i].0, r[j].0) {
        if i == 0 {
          var z := resto[j - 1];
          assert z in multiset(resto);
          if z != x {
            assert z in ys[1..];
            var k :| 0 <= k < |ys[1..]| && ys[1..][k] == z;
            assert ys[k + 1] == z;
          }
        }
      }
    }
  }

  /** Sorting a dict's items gives them in strictly increasing key order. */
  lemma {:induction false} OrdenarCrescente<V>(xs: seq<(string, V)>)
    requires UniqueKeys(xs)
    ensures Crescente(Ordenar(xs))
  {
    if xs != [] {
      OrdenarCrescente(xs[1..]);
      var resto := Ordenar(xs[1..]);
      forall y | y in resto ensures y.0 != xs[0].0 {
        assert y in multiset(xs[1..]);
        var k :| 0 <= k < |xs[1..]| && xs[1..][k] == y;
        assert xs[k + 1] == y;
      }
      InserirCrescente(xs[0], resto);
    }
  }

  lemma CrescenteUnico<V>(xs: seq<(string, V)>)
    requires Crescente(xs)
    ensures UniqueKeys(xs)
  {
    forall i, j | 0 <= i < j < |xs| ensures xs[i].0 != xs[j].0 {
      if xs[i].0 == xs[j].0 {
        LessIrreflexive(xs[i].0);
      }
    }
  }

  /** `dict(sorted(d.items()))` holds what `d` holds. */
  lemma OrdenarGet<V>(xs: seq<(string, V)>, k: string)
    requires UniqueKeys(xs)
    ensures UniqueKeys(Ordenar(xs))
    ensures Get(Ordenar(xs), k) == Get(xs, k)
  {
    var ys := Ordenar(xs);
    OrdenarCrescente(xs);
    CrescenteUnico(ys);
    GetIsItem(xs, k);
    if HasKey(ys, k) {
      var i :| 0 <= i < |ys| && ys[i].0 == k;
      assert ys[i] in multiset(xs);
      var j :| 0 <= j < |xs| && xs[j] == ys[i];
      assert xs[j].0 == k;
    }
    if HasKey(xs, k) {
      var v := Get(xs, k).value;
      assert (k, v) in multiset(ys);
      var i :| 0 <= i < |ys| && ys[i] == (k, v);
      GetUnique(ys, i);
    }
  }

  // ---------------------------------------------------------------------
  // The three passes
  // ---------------------------------------------------------------------

  /** The raw items under their corrected names. */
  function Mapeados(raw: Dict<string, Value>): (r: Dict<string, Value>)
    ensures |r| == |raw|
    ensures forall i :: 0 <= i < |raw| ==> r[i] == (NomeCorrigido(raw[i].0), raw[i].1)
  {
    seq(|raw|, i requires 0 <= i < |raw| => (NomeCorrigido(raw[i].0), raw[i].1))
  }

  /** `dados_corrigidos`: one assignment per raw item, in order. */
  function Corrigidos(raw: Dict<string, Value>): Dict<string, Value> {
    FromItems(Mapeados(raw))
  }

  /** A corrected name holds the value of the last raw item that corrects to
      it, and only corrected names are keys. */
  lemma CorrigidosGet(raw: Dict<string, Value>, i: int)
    requires 0 <= i < |raw|
    requires forall j :: i < j < |raw| ==> NomeCorrigido(raw[j].0) != NomeCorrigido(raw[i].0)
    ensures Get(Corrigidos(raw), NomeCorrigido(raw[i].0)) == Some(raw[i].1)
  {
    FromItemsLastWins(Mapeados(raw), i);
  }

  /** Each corrected item with the match of its name. */
  type Classificado = (Option<(string, string)>, Value)

  function Classificados(dc: Dict<string, Value>): (r: seq<Classificado>)
    ensures |r| == |dc|
    ensures forall i :: 0 <= i < |dc| ==> r[i] == (Casamento(dc[i].0), dc[i].1)
  {
    seq(|dc|, i requires 0 <= i < |dc| => (Casamento(dc[i].0), dc[i].1))
  }

  /** The value of the last of the first `n` items that match `(cidade, uf)`. */
  function UltimoCom(xs: seq<Classificado>, n: nat, cidade: string, uf: string): Option<Value>
    requires n <= |xs|
  {
    if n == 0 then None
    else if xs[n - 1].0 == Some((cidade, uf)) then Some(xs[n - 1].1)
    else UltimoCom(xs, n - 1, cidade, uf)
  }

  /** The value found is that of the last item naming the city, and none
      is found when no item names it. */
  lemma {:induction false} UltimoComDe(xs: seq<Classificado>, n: nat, cidade: string, uf: string)
    requires n <= |xs|
    ensures UltimoCom(xs, n, cidade, uf).Some? ==>
              exists i :: 0 <= i < n && xs[i].0 == Some((cidade, uf)) && xs[i].1 == UltimoCom(xs, n, cidade, uf).value
                          && forall j :: i < j < n ==> xs[j].0 != Some((cidade, uf))
    ensures UltimoCom(xs, n, cidade, uf).None? <==> forall i :: 0 <= i < n ==> xs[i].0 != Some((cidade, uf))
  {
    if n > 0 {
      UltimoComDe(xs, n - 1, cidade, uf);
    }
  }

  /** Some of the first `n` items names a city of `uf`. */
  predicate TemUf(xs: seq<Classificado>, n: nat, uf: string)
    requires n <= |xs|
  {
    exists i :: 0 <= i < n && xs[i].0.Some? && xs[i].0.value.1 == uf
  }

  /** The cities of `uf` in `agrupado`, `{}` when it has none yet. */
  function CidadesDe(agrupado: Dict<string, Dict<string, Value>>, uf: string): Dict<string, Value> {
    if HasKey(agrupado, uf) then Get(agrupado, uf).value else []
  }

  /** `agrupado` after the first `n` items of `dados_corrigidos`:
      `agrupado.setdefault(uf, {})[nome_cidade] = conteudo` for each match. */
  function GruposAte(xs: seq<Classificado>, n: nat): Dict<string, Dict<string, Value>>
    requires n <= |xs|
  {
    if n == 0 then []
    else
      var ant := GruposAte(xs, n - 1);
      match xs[n - 1].0
      case None => ant
      case Some(m) => Setdefault(ant, m.1, m.0, xs[n - 1].1)
  }

  /** `erros` after the first `n` items: one per name that does not match. */
  function ErrosAte(xs: seq<Classificado>, n: nat): nat
    requires n <= |xs|
  {
    if n == 0 then 0
    else if xs[n - 1].0.None? then ErrosAte(xs, n - 1) + 1
    else ErrosAte(xs, n - 1)
  }

  /** `agrupado.setdefault(uf, {})[cidade] = valor`, item by item: the
      state's entry is updated in place, or appended with its one city. */
  function Setdefault(g: Dict<string, Dict<string, Value>>, uf: string, cidade: string, valor: Value)
    : Dict<string, Dict<string, Value>>
  {
    if g == [] then [(uf, Assign([], cidade, valor))]
    else if g[0].0 == uf then [(uf, Assign(g[0].1, cidade, valor))] + g[1..]
    else [g[0]] + Setdefault(g[1..], uf, cidade, valor)
  }

  /** `setdefault` then the assignment is two dict assignments: the city
      into the state's cities (`{}` when new), and those into the states. */
  lemma {:induction false} SetdefaultAssign(g: Dict<string, Dict<string, Value>>, uf: string, cidade: string, valor: Value)
    ensures Setdefault(g, uf, cidade, valor) == Assign(g, uf, Assign(CidadesDe(g, uf), cidade, valor))
  {
    if g == [] {
      SetdefaultNovo(uf, cidade, valor);
    } else if g[0].0 == uf {
      SetdefaultPrimeiro(g, uf, cidade, valor);
    } else {
      SetdefaultAssign(g[1..], uf, cidade, valor);
      CidadesDeCons(g, uf);
      var novo := Assign(CidadesDe(g, uf), cidade, valor);
      AssignCons(g, uf, novo);
      assert Setdefault(g, uf, cidade, valor) == [g[0]] + Setdefault(g[1..], uf, cidade, valor);
    }
  }

  lemma SetdefaultNovo(uf: string, cidade: string, valor: Value)
    ensures Setdefault([], uf, cidade, valor) == Assign([], uf, Assign(CidadesDe([], uf), cidade, valor))
  {
    assert CidadesDe([], uf) == [];
  }

  lemma SetdefaultPrimeiro(g: Dict<string, Dict<string, Value>>, uf: string, cidade: string, valor: Value)
    requires g != [] && g[0].0 == uf
    ensures Setdefault(g, uf, cidade, valor) == Assign(g, uf, Assign(CidadesDe(g, uf), cidade, valor))
  {
    assert IndexOf(g, uf) == 0;
    assert CidadesDe(g, uf) == g[0].1;
    assert g[0 := (uf, Assign(g[0].1, cidade, valor))] == [(uf, Assign(g[0].1, cidade, valor))] + g[1..];
  }

  /** A state other than the first item's has the same cities in the rest. */
  lemma CidadesDeCons(g: Dict<string, Dict<string, Value>>, uf: string)
    requires g != [] && g[0].0 != uf
    ensures CidadesDe(g, uf) == CidadesDe(g[1..], uf)
  {
    assert IndexOf(g, uf) == if IndexOf(g[1..], uf) < 0 then -1 else IndexOf(g[1..], uf) + 1;
  }

  /** One `setdefault` assignment adds its state and sets its one city,
      leaving every other state and city as it was. */
  lemma SetdefaultGet(g: Dict<string, Dict<string, Value>>, u: string, c: string, v: Value, uf: string, cidade: string)
    ensures HasKey(Setdefault(g, u, c, v), uf) <==> HasKey(g, uf) || uf == u
    ensures Get(CidadesDe(Setdefault(g, u, c, v), uf), cidade)
            == if uf == u && cidade == c then Some(v) else Get(CidadesDe(g, uf), cidade)
  {
    SetdefaultAssign(g, u, c, v);
    var novo := Assign(CidadesDe(g, u), c, v);
    if uf == u {
      assert CidadesDe(Setdefault(g, u, c, v), uf) == novo;
    } else {
      assert Get(Setdefault(g, u, c, v), uf) == Get(g, uf);
    }
  }

  /** The lookup after one matched item of `AgruparAteGet`. */
  lemma GetPasso(ant: Dict<string, Dict<string, Value>>, g: Dict<string, Dict<string, Value>>,
                 m: (string, string), v: Value, cidade: string, uf: string)
    requires g == Setdefault(ant, m.1, m.0, v)
    ensures Get(CidadesDe(g, uf), cidade)
            == if m == (cidade, uf) then Some(v) else Get(CidadesDe(ant, uf), cidade)
  {
    SetdefaultGet(ant, m.1, m.0, v, uf, cidade);
  }

  /** Every key distinct, among the states and among each state's cities. */
  ghost predicate Unicos(g: Dict<string, Dict<string, Value>>) {
    UniqueKeys(g) && forall i :: 0 <= i < |g| ==> UniqueKeys(g[i].1)
  }

  /** One `setdefault` assignment keeps every key distinct, at both levels. */
  lemma SetdefaultUnico(g: Dict<string, Dict<string, Value>>, u: string, c: string, v: Value)
    requires Unicos(g)
    ensures Unicos(Setdefault(g, u, c, v))
  {
    SetdefaultAssign(g, u, c, v);
    GetIsItem(g, u);
    var novo := Assign(CidadesDe(g, u), c, v);
    var r := Setdefault(g, u, c, v);
    forall i | 0 <= i < |r| ensures UniqueKeys(r[i].1) {
      assert r[i] in r;
      if r[i] != (u, novo) {
        var j :| 0 <= j < |g| && g[j] == r[i];
      }
    }
  }

  /** A state is present once one of its cities has been met. */
  lemma {:induction false} AgruparAteTem(xs: seq<Classificado>, n: nat, uf: string)
    requires n <= |xs|
    ensures HasKey(GruposAte(xs, n), uf) <==> TemUf(xs, n, uf)
  {
    if n > 0 {
      AgruparAteTem(xs, n - 1, uf);
      TemUfPasso(xs, n, uf);
      var ant := GruposAte(xs, n - 1);
      if xs[n - 1].0.None? {
        assert GruposAte(xs, n) == ant;
      } else {
        var m := xs[n - 1].0.value;
        TemPasso(ant, GruposAte(xs, n), m, xs[n - 1].1, uf);
      }
    }
  }

  /** The states after one matched item of `AgruparAteTem`. */
  lemma TemPasso(ant: Dict<string, Dict<string, Value>>, g: Dict<string, Dict<string, Value>>,
                 m: (string, string), v: Value, uf: string)
    requires g == Setdefault(ant, m.1, m.0, v)
    ensures HasKey(g, uf) <==> HasKey(ant, uf) || m.1 == uf
  {
    SetdefaultGet(ant, m.1, m.0, v, uf, "");
  }

  lemma TemUfPasso(xs: seq<Classificado>, n: nat, uf: string)
    requires 0 < n <= |xs|
    ensures TemUf(xs, n, uf) <==> TemUf(xs, n - 1, uf) || (xs[n - 1].0.Some? && xs[n - 1].0.value.1 == uf)
  {
    if TemUf(xs, n, uf) && !(xs[n - 1].0.Some? && xs[n - 1].0.value.1 == uf) {
      var i :| 0 <= i < n && xs[i].0.Some? && xs[i].0.value.1 == uf;
      assert i < n - 1;
    }
  }

  /** A city holds the value of the last item naming it. */
  lemma {:induction false} AgruparAteGet(xs: seq<Classificado>, n: nat, cidade: string, uf: string)
    requires n <= |xs|
    ensures Get(CidadesDe(GruposAte(xs, n), uf), cidade) == UltimoCom(xs, n, cidade, uf)
  {
    if n > 0 {
      AgruparAteGet(xs, n - 1, cidade, uf);
      var ant := GruposAte(xs, n - 1);
      if xs[n - 1].0.None? {
        assert GruposAte(xs, n) == ant;
      } else {
        var m := xs[n - 1].0.value;
        GetPasso(ant, GruposAte(xs, n), m, xs[n - 1].1, cidade, uf);
      }
    }
  }

  /** Every state's cities, and the states themselves, are dicts with
      distinct keys. */
  lemma {:induction false} AgruparAteUnico(xs: seq<Classificado>, n: nat)
    requires n <= |xs|
    ensures Unicos(GruposAte(xs, n))
  {
    if n > 0 {
      AgruparAteUnico(xs, n - 1);
      var m := xs[n - 1].0;
      if m.Some? {
        SetdefaultUnico(GruposAte(xs, n - 1), m.value.1, m.value.0, xs[n - 1].1);
      }
    }
  }

  /** The error count is the number of names that do not match. */
  lemma {:induction false} AgruparAteErros(xs: seq<Classificado>, n: nat)
    requires n <= |xs|
    ensures ErrosAte(xs, n) <= n
    ensures ErrosAte(xs, n) == 0 <==> forall i :: 0 <= i < n ==> xs[i].0.Some?
    ensures ErrosAte(xs, n) == n <==> forall i :: 0 <= i < n ==> xs[i].0.None?
  {
    if n > 0 {
      AgruparAteErros(xs, n - 1);
    }
  }

  /** `{uf: dict(sorted(cidades.items())) for uf, cidades in estados}` */
  function OrdenarCidades(estados: Dict<string, Dict<string, Value>>): (r: Dict<string, Dict<string, Value>>)
    ensures |r| == |estados|
    ensures forall i :: 0 <= i < |estados| ==> r[i] == (estados[i].0, Ordenar(estados[i].1))
  {
    seq(|estados|, i requires 0 <= i < |estados| => (estados[i].0, Ordenar(estados[i].1)))
  }

  /** The processed dict and the error count. */
  function Processado(raw: Dict<string, Value>): (Dict<string, Dict<string, Value>>, nat) {
    var xs := Classificados(Corrigidos(raw));
    (OrdenarCidades(Ordenar(GruposAte(xs, |xs|))), ErrosAte(xs, |xs|))
  }

  /** `corrigir_e_salvar_json()`, from the raw file's contents. */
  method CorrigirESalvarJson(raw: Dict<string, Value>) returns (processado: Dict<string, Dict<string, Value>>, erros: nat)
    ensures (processado, erros) == Processado(raw)
  {
    var dadosCorrigidos := CorrigirNomes(raw);
    var agrupado;
    agrupado, erros := Agrupar(dadosCorrigidos);
    processado := OrdenarCidades(Ordenar(agrupado));
  }

  /** The first loop: `dados_corrigidos[nome_corrigido] = info` for each raw
      item; the assignments are gathered, then made in order. */
  method CorrigirNomes(raw: Dict<string, Value>) returns (dadosCorrigidos: Dict<string, Value>)
    ensures dadosCorrigidos == Corrigidos(raw)
  {
    var itens := RenomearItens(raw, NomeCorrigido);
    assert itens == Mapeados(raw);
    dadosCorrigidos := FromItems(itens);
  }

  /** The items of `raw` in order, each key renamed by `renomear`. */
  method RenomearItens(raw: Dict<string, Value>, renomear: string -> string) returns (itens: seq<(string, Value)>)
    ensures |itens| == |raw|
    ensures forall j :: 0 <= j < |raw| ==> itens[j] == (renomear(raw[j].0), raw[j].1)
  {
    itens := [];
    for i := 0 to |raw|
      invariant |itens| == i
      invariant forall j :: 0 <= j < i ==> itens[j] == (renomear(raw[j].0), raw[j].1)
    {
      itens := itens + [(renomear(raw[i].0), raw[i].1)];
    }
  }

  /** The second loop: each name that matches goes under its state, each
      other one is counted. */
  method Agrupar(dadosCorrigidos: Dict<string, Value>) returns (agrupado: Dict<string, Dict<string, Value>>, erros: nat)
    ensures var xs := Classificados(dadosCorrigidos);
            agrupado == GruposAte(xs, |xs|) && erros == ErrosAte(xs, |xs|)
  {
    ghost var xs := Classificados(dadosCorrigidos);
    agrupado := [];
    erros := 0;
    for i := 0 to |dadosCorrigidos|
      invariant agrupado == GruposAte(xs, i)
      invariant erros == ErrosAte(xs, i)
    {
      var m := Casamento(dadosCorrigidos[i].0);
      assert xs[i] == (m, dadosCorrigidos[i].1);
      if m.None? {
        erros := erros + 1;
        continue;
      }
      agrupado := Setdefault(agrupado, m.value.1, m.value.0, dadosCorrigidos[i].1);
    }
  }

  // ---------------------------------------------------------------------
  // What the processed file holds
  // ---------------------------------------------------------------------

  /** Mapping the cities of each state keeps the state keys, so a lookup
      finds the sorted cities of the state it found before. */
  lemma OrdenarCidadesGet(estados: Dict<string, Dict<string, Value>>, uf: string)
    requires UniqueKeys(estados)
    ensures HasKey(OrdenarCidades(estados), uf) <==> HasKey(estados, uf)
    ensures HasKey(estados, uf) ==> Get(OrdenarCidades(estados), uf) == Some(Ordenar(Get(estados, uf).value))
  {
    var r := OrdenarCidades(estados);
    assert UniqueKeys(r) by {
      forall i, j | 0 <= i < j < |r| ensures r[i].0 != r[j].0 {
        assert r[i].0 == estados[i].0 && r[j].0 == estados[j].0;
      }
    }
    if HasKey(estados, uf) {
      GetIsItem(estados, uf);
      var i :| 0 <= i < |estados| && estados[i] == (uf, Get(estados, uf).value);
      GetUnique(r, i);
    }
    if HasKey(r, uf) {
      var i :| 0 <= i < |r| && r[i].0 == uf;
      assert estados[i].0 == uf;
    }
  }

  /** The processed file has a state exactly when some corrected name
      names a city of it, and each city holds the value of the last raw
      item that corrects to "Cidade (UF)"; states and their cities come in
      increasing order. */
  lemma ProcessadoGet(raw: Dict<string, Value>, uf: string, cidade: string)
    ensures var xs := Classificados(Corrigidos(raw));
            var p := Processado(raw).0;
            (HasKey(p, uf) <==> TemUf(xs, |xs|, uf))
            && (HasKey(p, uf) ==> Get(Get(p, uf).value, cidade) == UltimoCom(xs, |xs|, cidade, uf))
  {
    var xs := Classificados(Corrigidos(raw));
    var g := GruposAte(xs, |xs|);
    AgruparAteUnico(xs, |xs|);
    AgruparAteTem(xs, |xs|, uf);
    AgruparAteGet(xs, |xs|, cidade, uf);
    OrdenarGet(g, uf);
    OrdenarCidadesGet(Ordenar(g), uf);
    if HasKey(g, uf) {
      GetIsItem(g, uf);
      var i :| 0 <= i < |g| && g[i] == (uf, Get(g, uf).value);
      OrdenarGet(g[i].1, cidade);
    }
  }

  /** States, and the cities of each state, come in increasing order. */
  lemma ProcessadoOrdenado(raw: Dict<string, Value>)
    ensures Crescente(Processado(raw).0)
    ensures forall i :: 0 <= i < |Processado(raw).0| ==> Crescente(Processado(raw).0[i].1)
  {
    var xs := Classificados(Corrigidos(raw));
    var g := GruposAte(xs, |xs|);
    AgruparAteUnico(xs, |xs|);
    OrdenarCrescente(g);
    var o := Ordenar(g);
    var p := OrdenarCidades(o);
    forall i, j | 0 <= i < j < |p| ensures Less(p[i].0, p[j].0) {
      assert p[i].0 == o[i].0 && p[j].0 == o[j].0;
    }
    forall i | 0 <= i < |p| ensures Crescente(p[i].1) {
      assert o[i] in multiset(g);
      var j :| 0 <= j < |g| && g[j] == o[i];
      OrdenarCrescente(g[j].1);
    }
  }
}
