/**
  The collecting side of the SIDRA scraper, in its two copies
  (scraper/core/scraper_sidra_ibge.py and
  backend/scraping/scraper_sidra_ibge.py): one API value fetched with
  retries, one municipality's record built from every configured query, and
  the run over the municipality codes that saves each record into the raw
  JSON file.

  The HTTP requests are a parameter: the response to each attempt, or the
  value each query yields. Sleeping, logging and the progress bar are not
  part of this model; the raw JSON file is the dict `arquivo`.
*/
module SidraConsulta {
  import opened Wrappers
  import opened PyText
  import opened PyDict
  import opened PyValue

  /** The two copies differ in how the city name is chosen and in whether a
      missing name is saved. */
  datatype Copia = ScraperCore | BackendScraping

  // ---------------------------------------------------------------------
  // int(str)
  // ---------------------------------------------------------------------

  predicate IsDigit(c: char) {
    '0' <= c <= '9'
  }

  /** Every character is a decimal digit (checked from the last one, the
      way `DigitsValue` reads them). */
  predicate AllDigits(ds: string)
    decreases |ds|
  {
    ds == [] || (IsDigit(ds[|ds| - 1]) && AllDigits(ds[..|ds| - 1]))
  }

  lemma {:induction false} AllDigitsAt(ds: string)
    ensures AllDigits(ds) <==> forall i :: 0 <= i < |ds| ==> IsDigit(ds[i])
    decreases |ds|
  {
    if ds != [] {
      var p := ds[..|ds| - 1];
      AllDigitsAt(p);
      assert forall i :: 0 <= i < |p| ==> p[i] == ds[i];
    }
  }

  /** The value of a string of decimal digits. */
  function DigitsValue(ds: string): nat
    requires AllDigits(ds)
    decreases |ds|
  {
    if ds == [] then 0
    else
      var d := (ds[|ds| - 1] as int) - ('0' as int);
      DigitsValue(ds[..|ds| - 1]) * 10 + d
  }

  /** The `_` at `i` stands between two digits. */
  predicate Separador(ds: string, i: int) {
    0 < i < |ds| - 1 && ds[i] == '_' && IsDigit(ds[i - 1]) && IsDigit(ds[i + 1])
  }

  /** Digits in groups: every other character is a separator. */
  predicate Agrupados(ds: string) {
    forall i :: 0 <= i < |ds| ==> IsDigit(ds[i]) || Separador(ds, i)
  }

  /** The digits with the group separators taken out. */
  function SemSublinhado(ds: string): (r: string)
    ensures (forall i :: 0 <= i < |ds| ==> ds[i] == '_' || IsDigit(ds[i])) ==> AllDigits(r)
    ensures AllDigits(ds) ==> r == ds
    decreases |ds|
  {
    if ds == [] then []
    else
      var p := SemSublinhado(ds[..|ds| - 1]);
      assert forall i :: 0 <= i < |ds| - 1 ==> ds[..|ds| - 1][i] == ds[i];
      assert (p + [ds[|ds| - 1]])[..|p|] == p;
      if ds[|ds| - 1] == '_' then p else p + [ds[|ds| - 1]]
  }

  /** `int(s)` for a string: surrounding whitespace, an optional sign, then
      decimal digits, possibly grouped by single underscores; anything else
      raises (None). */
  function ParseInt(s: string): Option<int> {
    ParseSigned(Strip(s))
  }

  /** An optional sign, then one or more digits grouped by `_`. */
  function ParseSigned(t: string): (r: Option<int>)
    ensures r.Some? ==> t != []
  {
    var neg := t != [] && t[0] == '-';
    var ds := if t != [] && (t[0] == '-' || t[0] == '+') then t[1..] else t;
    if ds == [] || !Agrupados(ds) then None
    else
      assert forall i :: 0 <= i < |ds| ==> ds[i] == '_' || IsDigit(ds[i]);
      var d: int := DigitsValue(SemSublinhado(ds));
      Some(if neg then -d else d)
  }

  lemma {:induction false} SemSublinhadoAppend(u: string, v: string)
    ensures SemSublinhado(u + v) == SemSublinhado(u) + SemSublinhado(v)
    decreases |v|
  {
    if v == [] {
      assert u + v == u;
    } else {
      var w := v[..|v| - 1];
      SemSublinhadoAppend(u, w);
      assert (u + v)[..|u + v| - 1] == u + w;
    }
  }

  lemma AgrupadosOfSeparated(x: string, y: string)
    requires x != [] && y != []
    requires forall i :: 0 <= i < |x| ==> IsDigit(x[i])
    requires forall i :: 0 <= i < |y| ==> IsDigit(y[i])
    ensures Agrupados(x + "_" + y)
  {
    var s := x + "_" + y;
    forall i | 0 <= i < |s| ensures IsDigit(s[i]) || Separador(s, i) {
      if i < |x| {
        assert s[i] == x[i];
      } else if i == |x| {
        assert s[i - 1] == x[|x| - 1];
        assert s[i + 1] == y[0];
      } else {
        assert s[i] == y[i - |x| - 1];
      }
    }
  }

  lemma ParseSignedOfGrouped(ds: string)
    requires ds != [] && IsDigit(ds[0]) && Agrupados(ds)
    ensures AllDigits(SemSublinhado(ds))
    ensures ParseSigned(ds) == Some(DigitsValue(SemSublinhado(ds)))
  {
    assert forall i :: 0 <= i < |ds| ==> ds[i] == '_' || IsDigit(ds[i]);
  }

  /** Digits are read the same with one `_` between two of them. */
  lemma ParseSignedSeparator(x: string, y: string)
    requires x != [] && y != [] && AllDigits(x) && AllDigits(y)
    ensures AllDigits(x + y)
    ensures ParseSigned(x + "_" + y) == Some(DigitsValue(x + y))
    ensures ParseSigned(x + y) == Some(DigitsValue(x + y))
  {
    AllDigitsAt(x);
    AllDigitsAt(y);
    var xy := x + y;
    AllDigitsAt(xy);
    assert xy[0] == x[0];
    assert Agrupados(xy);
    ParseSignedOfGrouped(xy);
    var s := x + "_" + y;
    assert s[0] == x[0];
    AgrupadosOfSeparated(x, y);
    SemSublinhadoAppend(x + "_", y);
    SemSublinhadoAppend(x, "_");
    assert SemSublinhado("_") == [];
    assert SemSublinhado(s) == xy;
    ParseSignedOfGrouped(s);
  }

  /** Two `_` in a row, or one at the end, raise. */
  lemma ParseSignedBadSeparator(x: string, y: string)
    requires x != [] && y != [] && AllDigits(x)
    ensures ParseSigned(x + "__" + y) == None
    ensures ParseSigned(x + "_") == None
  {
    AllDigitsAt(x);
    var d := x + "__" + y;
    assert d[0] == x[0] && d[|x|] == '_' && d[|x| + 1] == '_';
    assert !IsDigit(d[|x|]) && !Separador(d, |x|);
    var e := x + "_";
    assert e[0] == x[0] && e[|e| - 1] == '_';
    assert !IsDigit(e[|e| - 1]) && !Separador(e, |e| - 1);
  }

  lemma DigitCharValue(d: nat)
    requires d < 10
    ensures (DigitChar(d) as int) - ('0' as int) == d
  {
  }

  lemma {:induction false} DigitsOfNatToStr(n: nat)
    ensures AllDigits(NatToStr(n))
    ensures DigitsValue(NatToStr(n)) == n
    decreases n
  {
    if n >= 10 {
      DigitsOfNatToStr(n / 10);
      var s := NatToStr(n);
      assert s[..|s| - 1] == NatToStr(n / 10);
      DigitCharValue(n % 10);
    } else {
      DigitCharValue(n);
    }
  }

  /** A string of digits, with or without a leading minus sign, is its
      own stripped form. */
  lemma StrippedOfDigits(s: string, k: nat)
    requires k <= 1 && k < |s| && AllDigits(s[k..]) && (k == 1 ==> s[0] == '-')
    ensures Strip(s) == s
  {
    AllDigitsAt(s[k..]);
    assert IsDigit(s[|s| - 1]) by {
      assert s[|s| - 1] == s[k..][|s| - 1 - k];
    }
    if k == 0 {
      assert IsDigit(s[0]) by {
        assert s[0] == s[k..][0];
      }
    }
    StripOfStripped(s);
  }

  /** Digits alone, or after a minus sign. */
  lemma ParseSignedOfDigits(ds: string)
    requires ds != [] && AllDigits(ds)
    ensures ParseSigned(ds) == Some(DigitsValue(ds))
    ensures var v: int := DigitsValue(ds); ParseSigned("-" + ds) == Some(-v)
  {
    AllDigitsAt(ds);
    assert IsDigit(ds[0]);
    assert Agrupados(ds);
    assert SemSublinhado(ds) == ds;
    assert ("-" + ds)[1..] == ds;
  }

  lemma ParseSignedOfIntToStr(i: int)
    ensures ParseSigned(IntToStr(i)) == Some(i)
  {
    var n := if i < 0 then -i else i;
    DigitsOfNatToStr(n);
    ParseSignedOfDigits(NatToStr(n));
  }

  /** `int(str(i)) == i`. */
  lemma ParseIntOfIntToStr(i: int)
    ensures ParseInt(IntToStr(i)) == Some(i)
  {
    var n := if i < 0 then -i else i;
    DigitsOfNatToStr(n);
    var s := IntToStr(i);
    if i < 0 {
      assert s[1..] == NatToStr(n);
      StrippedOfDigits(s, 1);
    } else {
      assert s[0..] == s;
      StrippedOfDigits(s, 0);
    }
    ParseSignedOfIntToStr(i);
  }

  /** `int(v)` for a JSON value: integers as they are, booleans as 0/1,
      strings parsed; anything else raises. */
  function IntDe(v: Value): Option<int> {
    match v
    case VInt(i) => Some(i)
    case VBool(b) => Some(if b then 1 else 0)
    case VStr(s) => ParseInt(s)
    case _ => None
  }

  // ---------------------------------------------------------------------
  // get_dado_sidra
  // ---------------------------------------------------------------------

  /** What one attempt gets: the request or the JSON decoding raised, or a
      response with its status code and decoded body. */
  datatype Resposta = Falhou | Http(status: int, corpo: Value)

  /** One attempt of `get_dado_sidra`: the city name, the value (with its
      thousands dots removed) and the year from the second row of the body,
      or None where the attempt fails, by status, by shape or by raising. */
  function Tentativa(r: Resposta): Option<(Value, int, int)>
  {
    if !r.Http? || r.status != 200 || !r.corpo.VList? || |r.corpo.items| <= 1 then None
    else
      match r.corpo.items[1]
      case VDict(linha) =>
        if !HasKey(linha, "V") || !HasKey(linha, "D3N") || !HasKey(linha, "D1N") then None
        else
          var v := Get(linha, "V").value;
          if !v.VStr? then None
          else
            var valor := ParseInt(ReplaceAll(v.s, ".", ""));
            var ano := IntDe(Get(linha, "D3N").value);
            if valor.None? || ano.None? then None
            else Some((Get(linha, "D1N").value, valor.value, ano.value))
      case _ => None
  }

  /** An attempt succeeds only on a 200 response whose body is a list with
      a second row holding the three keys; it yields that row's name, its
      value read with the dots removed, and its year. */
  lemma TentativaShape(r: Resposta)
    ensures Tentativa(r).Some? ==> r.Http? && r.status == 200 && r.corpo.VList? && |r.corpo.items| > 1
                                   && r.corpo.items[1].VDict?
    ensures Tentativa(r).Some? ==>
              var t := Tentativa(r).value;
              var linha := r.corpo.items[1].entries;
              HasKey(linha, "V") && HasKey(linha, "D3N")
              && Get(linha, "D1N") == Some(t.0)
              && Get(linha, "V").value.VStr?
              && ParseInt(ReplaceAll(Get(linha, "V").value.s, ".", "")) == Some(t.1)
              && IntDe(Get(linha, "D3N").value) == Some(t.2)
  {
  }

  /** What each attempt gets: attempt `i` reads the response to request
      `i` with `Tentativa`. */
  function Obtidos(respostas: nat -> Resposta): nat -> Option<(Value, int, int)> {
    (i: nat) => Tentativa(respostas(i))
  }

  /** `get_dado_sidra(..., tentativas)`, with `respostas(i)` the outcome of
      the i-th request. Also returns how many requests were made. */
  method GetDadoSidra(tentativas: int, respostas: nat -> Resposta)
    returns (r: Result<(Value, int, int)>, pedidos: nat)
    ensures pedidos <= if tentativas < 0 then 0 else tentativas
    ensures r.Success? <==> exists i :: 0 <= i < tentativas && Obtidos(respostas)(i).Some?
    ensures r.Success? ==> pedidos >= 1 && Obtidos(respostas)(pedidos - 1) == Some(r.value)
                           && forall j :: 0 <= j < pedidos - 1 ==> Obtidos(respostas)(j).None?
    ensures r.Failure? ==> r.error == "RuntimeError" && pedidos == if tentativas < 0 then 0 else tentativas
  {
    r, pedidos := Tentar(tentativas, Obtidos(respostas));
  }

  /** The retry loop of `get_dado_sidra`: attempt `i` yields `obter(i)`;
      the first that yields something ends the loop, and running out of
      attempts raises `RuntimeError`. */
  method Tentar<T>(tentativas: int, obter: nat -> Option<T>) returns (r: Result<T>, pedidos: nat)
    ensures pedidos <= if tentativas < 0 then 0 else tentativas
    ensures r.Success? <==> exists i :: 0 <= i < tentativas && obter(i).Some?
    ensures r.Success? ==> pedidos >= 1 && obter(pedidos - 1) == Some(r.value)
                           && forall j :: 0 <= j < pedidos - 1 ==> obter(j).None?
    ensures r.Failure? ==> r.error == "RuntimeError" && pedidos == if tentativas < 0 then 0 else tentativas
  {
    pedidos := 0;
    while pedidos < tentativas
      invariant 0 <= pedidos <= (if tentativas < 0 then 0 else tentativas)
      invariant forall j :: 0 <= j < pedidos ==> obter(j).None?
    {
      var obtido := obter(pedidos);
      pedidos := pedidos + 1;
      if obtido.Some? {
        return Success(obtido.value), pedidos;
      }
    }
    return Failure("RuntimeError"), pedidos;
  }

  // ---------------------------------------------------------------------
  // coletar_dados_municipio
  // ---------------------------------------------------------------------

  /** `get_dado_sidra` for one municipality and one query, as the outcome
      of the whole call with its retries. */
  type Consultor = (int, Value, Value) -> Result<(Value, int, int)>

  /** One query: `config["tabela"]` and `config["variavel"]` (raising where
      the config is not a dict or lacks them), then `get_dado_sidra`. */
  function Consulta(codigo: int, config: Value, consulta: Consultor): Result<(Value, int, int)> {
    if !config.VDict? then Failure("TypeError")
    else
      match (Get(config.entries, "tabela"), Get(config.entries, "variavel"))
      case (Some(tabela), Some(variavel)) => consulta(codigo, tabela, variavel)
      case _ => Failure("KeyError")
  }

  /** The city name kept after one more query: scraper/core keeps the first
      name that `is not None`, backend/scraping the first truthy one. */
  function NomeApos(copia: Copia, atual: Value, novo: Value): Value {
    match copia
    case ScraperCore => if atual == VNone then novo else atual
    case BackendScraping => if !Truthy(atual) then novo else atual
  }

  /** `{"valor": valor, "ano": ano}` */
  function Registro(valor: int, ano: int): Value {
    VDict([("valor", VInt(valor)), ("ano", VInt(ano))])
  }

  /** The outcome of each query, in the order of `queries`. */
  function Respostas(codigo: int, queries: Dict<string, Value>, consulta: Consultor)
    : (rs: seq<Result<(Value, int, int)>>)
    ensures |rs| == |queries|
    ensures forall i :: 0 <= i < |queries| ==> rs[i] == Consulta(codigo, queries[i].1, consulta)
  {
    seq(|queries|, i requires 0 <= i < |queries| => Consulta(codigo, queries[i].1, consulta))
  }

  /** The error of the first query among the first `n` that raised. */
  function PrimeiraFalha(rs: seq<Result<(Value, int, int)>>, n: nat): (r: Option<string>)
    requires n <= |rs|
    ensures r.None? <==> forall i :: 0 <= i < n ==> rs[i].Success?
    ensures r.Some? ==> exists i :: 0 <= i < n && rs[i] == Failure(r.value)
                                    && forall j :: 0 <= j < i ==> rs[j].Success?
  {
    if n == 0 then None
    else if PrimeiraFalha(rs, n - 1).Some? then PrimeiraFalha(rs, n - 1)
    else if rs[n - 1].Failure? then Some(rs[n - 1].error)
    else None
  }

  /** Where query `i` is the first to raise, its error is the collection's. */
  lemma {:induction false} PrimeiraFalhaEm(rs: seq<Result<(Value, int, int)>>, n: nat, i: nat)
    requires i < n <= |rs| && rs[i].Failure?
    requires forall j :: 0 <= j < i ==> rs[j].Success?
    ensures PrimeiraFalha(rs, n) == Some(rs[i].error)
  {
    if n > i + 1 {
      PrimeiraFalhaEm(rs, n - 1, i);
    } else {
      assert PrimeiraFalha(rs, i).None?;
    }
  }

  /** The city name after the first `n` queries, all of which returned. */
  function NomeAte(copia: Copia, rs: seq<Result<(Value, int, int)>>, n: nat): Value
    requires n <= |rs| && forall i :: 0 <= i < n ==> rs[i].Success?
  {
    if n == 0 then VNone else NomeApos(copia, NomeAte(copia, rs, n - 1), rs[n - 1].value.0)
  }

  /** One `(chave, {valor, ano})` item per query, in order. */
  function Itens(chaves: seq<string>, rs: seq<Result<(Value, int, int)>>, n: nat): (r: Dict<string, Value>)
    requires |rs| == |chaves| && n <= |rs| && forall i :: 0 <= i < n ==> rs[i].Success?
    ensures |r| == n
    ensures forall i :: 0 <= i < n ==> r[i] == (chaves[i], Registro(rs[i].value.1, rs[i].value.2))
  {
    if n == 0 then [] else Itens(chaves, rs, n - 1) + [(chaves[n - 1], Registro(rs[n - 1].value.1, rs[n - 1].value.2))]
  }

  /** The record after the first `n` queries, all of which returned: the
      code, then one assignment per query, under the query's key. */
  function DadosAte(codigo: int, chaves: seq<string>, rs: seq<Result<(Value, int, int)>>, n: nat)
    : Dict<string, Value>
    requires |rs| == |chaves| && n <= |rs| && forall i :: 0 <= i < n ==> rs[i].Success?
  {
    FromItems([("codigo_ibge", VInt(codigo))] + Itens(chaves, rs, n))
  }

  /** The name and the record, or the first exception, after the first `n`
      queries. */
  function ColetarAte(codigo: int, chaves: seq<string>, rs: seq<Result<(Value, int, int)>>, copia: Copia, n: nat)
    : Result<(Value, Dict<string, Value>)>
    requires |rs| == |chaves| && n <= |rs|
  {
    match PrimeiraFalha(rs, n)
    case Some(e) => Failure(e)
    case None => Success((NomeAte(copia, rs, n), DadosAte(codigo, chaves, rs, n)))
  }

  function Coletar(codigo: int, queries: Dict<string, Value>, consulta: Consultor, copia: Copia)
    : Result<(Value, Dict<string, Value>)>
  {
    ColetarAte(codigo, Keys(queries), Respostas(codigo, queries, consulta), copia, |queries|)
  }

  /** `coletar_dados_municipio(codigo_ibge, queries)`. */
  method ColetarDadosMunicipio(codigo: int, queries: Dict<string, Value>, consulta: Consultor, copia: Copia)
    returns (r: Result<(Value, Dict<string, Value>)>)
    ensures r == Coletar(codigo, queries, consulta, copia)
  {
    ghost var rs := Respostas(codigo, queries, consulta);
    var itens: seq<(string, Value)> := [];
    var nome := VNone;
    for i := 0 to |queries|
      invariant PrimeiraFalha(rs, i).None?
      invariant nome == NomeAte(copia, rs, i)
      invariant itens == Itens(Keys(queries), rs, i)
    {
      var res := Consulta(codigo, queries[i].1, consulta);
      ColetarPasso(codigo, queries, consulta, copia, i);
      if res.Failure? {
        return Failure(res.error);
      }
      itens := itens + [(queries[i].0, Registro(res.value.1, res.value.2))];
      nome := NomeApos(copia, nome, res.value.0);
    }
    ColetarFim(codigo, queries, consulta, copia);
    return Success((nome, FromItems([("codigo_ibge", VInt(codigo))] + itens)));
  }

  /** When every query returns, the collection is the name and the record
      after all of them. */
  lemma ColetarFim(codigo: int, queries: Dict<string, Value>, consulta: Consultor, copia: Copia)
    requires PrimeiraFalha(Respostas(codigo, queries, consulta), |queries|).None?
    ensures var rs := Respostas(codigo, queries, consulta);
            Coletar(codigo, queries, consulta, copia)
            == Success((NomeAte(copia, rs, |queries|),
                        FromItems([("codigo_ibge", VInt(codigo))] + Itens(Keys(queries), rs, |queries|))))
  {
  }

  /** What query `i` does to the collection, once the queries before it
      have returned: it raises, and so does the collection, or it adds one
      item and may set the name. */
  lemma ColetarPasso(codigo: int, queries: Dict<string, Value>, consulta: Consultor, copia: Copia, i: nat)
    requires i < |queries|
    requires PrimeiraFalha(Respostas(codigo, queries, consulta), i).None?
    ensures var rs := Respostas(codigo, queries, consulta);
            var res := Consulta(codigo, queries[i].1, consulta);
            rs[i] == res
            && (res.Failure? ==> Coletar(codigo, queries, consulta, copia) == Failure(res.error))
            && (res.Success? ==>
                  PrimeiraFalha(rs, i + 1).None?
                  && NomeAte(copia, rs, i + 1) == NomeApos(copia, NomeAte(copia, rs, i), res.value.0)
                  && Itens(Keys(queries), rs, i + 1)
                     == Itens(Keys(queries), rs, i) + [(queries[i].0, Registro(res.value.1, res.value.2))])
  {
    var rs := Respostas(codigo, queries, consulta);
    if rs[i].Failure? {
      PrimeiraFalhaEm(rs, |rs|, i);
    }
  }

  /** One more query is one more assignment to the record. */
  lemma DadosAtePasso(codigo: int, chaves: seq<string>, rs: seq<Result<(Value, int, int)>>, n: nat)
    requires |rs| == |chaves| && n < |rs| && forall i :: 0 <= i <= n ==> rs[i].Success?
    ensures DadosAte(codigo, chaves, rs, n + 1)
            == Assign(DadosAte(codigo, chaves, rs, n), chaves[n], Registro(rs[n].value.1, rs[n].value.2))
  {
    var item := (chaves[n], Registro(rs[n].value.1, rs[n].value.2));
    var antes := [("codigo_ibge", VInt(codigo))] + Itens(chaves, rs, n);
    assert [("codigo_ibge", VInt(codigo))] + Itens(chaves, rs, n + 1) == antes + [item];
    FromItemsSnoc(antes, item.0, item.1);
  }

  /** No key occurs twice. */
  predicate Distintas(chaves: seq<string>) {
    forall i, j :: 0 <= i < j < |chaves| ==> chaves[i] != chaves[j]
  }

  /** The items the record is built from, when the query keys are distinct
      and other than "codigo_ibge", name each key once. */
  lemma ItensUnicos(codigo: int, chaves: seq<string>, rs: seq<Result<(Value, int, int)>>, n: nat)
    requires |rs| == |chaves| && n <= |rs| && Distintas(chaves) && "codigo_ibge" !in chaves
    requires forall i :: 0 <= i < n ==> rs[i].Success?
    ensures UniqueKeys([("codigo_ibge", VInt(codigo))] + Itens(chaves, rs, n))
  {
    var items := [("codigo_ibge", VInt(codigo))] + Itens(chaves, rs, n);
    forall i, j | 0 <= i < j < |items| ensures items[i].0 != items[j].0 {
      assert items[j].0 == chaves[j - 1];
      if i > 0 {
        assert items[i].0 == chaves[i - 1];
      }
    }
  }

  /** The keys of the items are "codigo_ibge" followed by the query keys. */
  lemma ItensChaves(codigo: int, chaves: seq<string>, rs: seq<Result<(Value, int, int)>>, n: nat)
    requires |rs| == |chaves| && n <= |rs| && forall i :: 0 <= i < n ==> rs[i].Success?
    ensures Keys([("codigo_ibge", VInt(codigo))] + Itens(chaves, rs, n)) == ["codigo_ibge"] + chaves[..n]
  {
    var items := [("codigo_ibge", VInt(codigo))] + Itens(chaves, rs, n);
    var ks := Keys(items);
    var esperadas := ["codigo_ibge"] + chaves[..n];
    forall k | 0 <= k < |ks| ensures ks[k] == esperadas[k] {
      if k > 0 {
        assert items[k] == Itens(chaves, rs, n)[k - 1];
      }
    }
  }

  /** Under distinct keys, each key of the items finds its own value. */
  lemma ItensGet(codigo: int, chaves: seq<string>, rs: seq<Result<(Value, int, int)>>, n: nat)
    requires |rs| == |chaves| && n <= |rs| && forall i :: 0 <= i < n ==> rs[i].Success?
    requires UniqueKeys([("codigo_ibge", VInt(codigo))] + Itens(chaves, rs, n))
    ensures Get([("codigo_ibge", VInt(codigo))] + Itens(chaves, rs, n), "codigo_ibge") == Some(VInt(codigo))
    ensures forall i :: 0 <= i < n ==>
              Get([("codigo_ibge", VInt(codigo))] + Itens(chaves, rs, n), chaves[i])
              == Some(Registro(rs[i].value.1, rs[i].value.2))
  {
    var items := [("codigo_ibge", VInt(codigo))] + Itens(chaves, rs, n);
    GetUnique(items, 0);
    forall i | 0 <= i < n
      ensures Get(items, chaves[i]) == Some(Registro(rs[i].value.1, rs[i].value.2))
    {
      assert items[i + 1] == (chaves[i], Registro(rs[i].value.1, rs[i].value.2));
      GetUnique(items, i + 1);
    }
  }

  /** The record's keys are "codigo_ibge" followed by the query keys, in
      the order of the queries (the query keys being distinct and other
      than "codigo_ibge"). */
  lemma DadosAteChaves(codigo: int, chaves: seq<string>, rs: seq<Result<(Value, int, int)>>, n: nat)
    requires |rs| == |chaves| && n <= |rs| && Distintas(chaves) && "codigo_ibge" !in chaves
    requires forall i :: 0 <= i < n ==> rs[i].Success?
    ensures Keys(DadosAte(codigo, chaves, rs, n)) == ["codigo_ibge"] + chaves[..n]
  {
    ItensUnicos(codigo, chaves, rs, n);
    FromItemsOfUnique([("codigo_ibge", VInt(codigo))] + Itens(chaves, rs, n));
    ItensChaves(codigo, chaves, rs, n);
  }

  /** The record maps "codigo_ibge" to the code and each query's key to that
      query's `{valor, ano}`. */
  lemma DadosAteConteudo(codigo: int, chaves: seq<string>, rs: seq<Result<(Value, int, int)>>, n: nat)
    requires |rs| == |chaves| && n <= |rs| && Distintas(chaves) && "codigo_ibge" !in chaves
    requires forall i :: 0 <= i < n ==> rs[i].Success?
    ensures Get(DadosAte(codigo, chaves, rs, n), "codigo_ibge") == Some(VInt(codigo))
    ensures forall i :: 0 <= i < n ==>
              Get(DadosAte(codigo, chaves, rs, n), chaves[i]) == Some(Registro(rs[i].value.1, rs[i].value.2))
  {
    ItensUnicos(codigo, chaves, rs, n);
    FromItemsOfUnique([("codigo_ibge", VInt(codigo))] + Itens(chaves, rs, n));
    ItensGet(codigo, chaves, rs, n);
  }

  /** scraper/core: the name is the first one that is not None, and None
      only when every query returned None. */
  lemma {:induction false} NomeAteCore(rs: seq<Result<(Value, int, int)>>, n: nat)
    requires n <= |rs| && forall i :: 0 <= i < n ==> rs[i].Success?
    ensures NomeAte(ScraperCore, rs, n) == VNone <==> forall i :: 0 <= i < n ==> rs[i].value.0 == VNone
    ensures NomeAte(ScraperCore, rs, n) != VNone ==>
              exists i :: 0 <= i < n && NomeAte(ScraperCore, rs, n) == rs[i].value.0
                          && forall j :: 0 <= j < i ==> rs[j].value.0 == VNone
  {
    if n > 0 {
      NomeAteCore(rs, n - 1);
    }
  }

  /** backend/scraping: the name is the first truthy one; without one, it is
      the last query's name (an empty string or None). */
  lemma {:induction false} NomeAteBackend(rs: seq<Result<(Value, int, int)>>, n: nat)
    requires n <= |rs| && forall i :: 0 <= i < n ==> rs[i].Success?
    ensures Truthy(NomeAte(BackendScraping, rs, n)) <==> exists i :: 0 <= i < n && Truthy(rs[i].value.0)
    ensures Truthy(NomeAte(BackendScraping, rs, n)) ==>
              exists i :: 0 <= i < n && NomeAte(BackendScraping, rs, n) == rs[i].value.0
                          && forall j :: 0 <= j < i ==> !Truthy(rs[j].value.0)
    ensures !Truthy(NomeAte(BackendScraping, rs, n)) && n > 0 ==> NomeAte(BackendScraping, rs, n) == rs[n - 1].value.0
  {
    if n > 0 {
      NomeAteBackend(rs, n - 1);
    }
  }

  /** The two name rules part ways on an empty name: scraper/core keeps it,
      backend/scraping moves on to the next query's name. */
  lemma NomeVazio(rs: seq<Result<(Value, int, int)>>, nome: string)
    requires |rs| == 2 && rs[0].Success? && rs[1].Success?
    requires rs[0].value.0 == VStr("") && rs[1].value.0 == VStr(nome) && nome != ""
    ensures NomeAte(ScraperCore, rs, 2) == VStr("")
    ensures NomeAte(BackendScraping, rs, 2) == VStr(nome)
  {
    assert NomeAte(ScraperCore, rs, 1) == VStr("");
    assert NomeAte(BackendScraping, rs, 1) == VStr("");
  }

  // ---------------------------------------------------------------------
  // run
  // ---------------------------------------------------------------------

  /** `any(str(codigo_ibge) in c for c in cidades_prontas)` */
  predicate JaColetado(codigo: int, prontas: seq<string>) {
    exists c :: c in prontas && Contains(c, IntToStr(codigo))
  }

  /** The key `json.dump` writes for a name used as a dict key; None where
      the name cannot be a key (a list or a dict is unhashable). */
  function ChaveJson(nome: Value): Option<string> {
    match nome
    case VStr(s) => Some(s)
    case VNone => Some("null")
    case VBool(b) => Some(if b then "true" else "false")
    case VInt(i) => Some(IntToStr(i))
    case _ => None
  }

  /** The raw file after `run` has gone through `municipios`: codes already
      present are skipped, a collection that raises stops the run, and
      scraper/core skips a municipality without a name. */
  function RunDesde(municipios: seq<int>, arquivo: Dict<string, Value>, prontas: seq<string>,
                    queries: Dict<string, Value>, consulta: Consultor, copia: Copia): Dict<string, Value>
    decreases |municipios|
  {
    if municipios == [] then arquivo
    else if JaColetado(municipios[0], prontas) then RunDesde(municipios[1..], arquivo, prontas, queries, consulta, copia)
    else
      match Coletar(municipios[0], queries, consulta, copia)
      case Failure(_) => arquivo
      case Success(res) =>
        if copia == ScraperCore && res.0 == VNone then RunDesde(municipios[1..], arquivo, prontas, queries, consulta, copia)
        else
          match ChaveJson(res.0)
          case None => arquivo
          case Some(chave) => RunDesde(municipios[1..], Assign(arquivo, chave, VDict(res.1)), prontas, queries, consulta, copia)
  }

  /** `run()`, from the raw file's contents when it starts. */
  method Run(municipios: seq<int>, arquivo0: Dict<string, Value>, queries: Dict<string, Value>,
             consulta: Consultor, copia: Copia) returns (arquivo: Dict<string, Value>)
    ensures arquivo == RunDesde(municipios, arquivo0, Keys(arquivo0), queries, consulta, copia)
  {
    var prontas := Keys(arquivo0);
    arquivo := arquivo0;
    var i := 0;
    while i < |municipios|
      invariant 0 <= i <= |municipios|
      invariant RunDesde(municipios[i..], arquivo, prontas, queries, consulta, copia)
                == RunDesde(municipios, arquivo0, prontas, queries, consulta, copia)
    {
      var codigo := municipios[i];
      assert municipios[i..][0] == codigo && municipios[i..][1..] == municipios[i + 1..];
      if JaColetado(codigo, prontas) {
        i := i + 1;
        continue;
      }
      var r := ColetarDadosMunicipio(codigo, queries, consulta, copia);
      if r.Failure? {
        break;
      }
      var nome := r.value.0;
      if copia == ScraperCore && nome == VNone {
        i := i + 1;
        continue;
      }
      var chave := ChaveJson(nome);
      if chave.None? {
        break;
      }
      arquivo := Assign(arquivo, chave.value, VDict(r.value.1));
      i := i + 1;
    }
  }

  /** A municipality whose collection raises ends the run: nothing after it
      is collected. */
  lemma {:induction false} RunParaNaFalha(municipios: seq<int>, arquivo: Dict<string, Value>, prontas: seq<string>,
                                          queries: Dict<string, Value>, consulta: Consultor, copia: Copia, j: nat)
    requires j < |municipios| && !JaColetado(municipios[j], prontas)
    requires Coletar(municipios[j], queries, consulta, copia).Failure?
    ensures RunDesde(municipios, arquivo, prontas, queries, consulta, copia)
            == RunDesde(municipios[..j], arquivo, prontas, queries, consulta, copia)
    decreases j
  {
    if j > 0 {
      var ms := municipios;
      assert ms[..j][0] == ms[0] && ms[..j][1..] == ms[1..][..j - 1];
      assert ms[1..][j - 1] == ms[j];
      if JaColetado(ms[0], prontas) {
        RunParaNaFalha(ms[1..], arquivo, prontas, queries, consulta, copia, j - 1);
      } else if Coletar(ms[0], queries, consulta, copia).Success? {
        var res := Coletar(ms[0], queries, consulta, copia).value;
        if copia == ScraperCore && res.0 == VNone {
          RunParaNaFalha(ms[1..], arquivo, prontas, queries, consulta, copia, j - 1);
        } else if ChaveJson(res.0).Some? {
          RunParaNaFalha(ms[1..], Assign(arquivo, ChaveJson(res.0).value, VDict(res.1)),
                         prontas, queries, consulta, copia, j - 1);
        }
      }
    }
  }

  /** The skip test looks for the code inside the saved keys, which are city
      names: when no key holds a digit, no code is ever skipped. */
  lemma NomesSemDigitosNuncaPulam(codigo: int, prontas: seq<string>)
    requires forall c :: c in prontas ==> forall k :: 0 <= k < |c| ==> !IsDigit(c[k])
    ensures !JaColetado(codigo, prontas)
  {
    var s := IntToStr(codigo);
    var n := if codigo < 0 then -codigo else codigo;
    DigitsOfNatToStr(n);
    assert IsDigit(s[|s| - 1]) by {
      assert s[|s| - 1] == NatToStr(n)[|NatToStr(n)| - 1];
    }
    forall c | c in prontas ensures !Contains(c, s) {
      forall i | 0 <= i <= |c| - |s| ensures !OccursAt(c, s, i) {
        assert c[i..i + |s|][|s| - 1] == c[i + |s| - 1];
        assert !IsDigit(c[i + |s| - 1]);
      }
    }
  }

  /** A municipality whose name came back None: scraper/core skips it,
      backend/scraping saves its record under the key "null". */
  lemma NomeNulo(codigo: int, arquivo: Dict<string, Value>, prontas: seq<string>,
                 queries: Dict<string, Value>, consulta: Consultor)
    requires !JaColetado(codigo, prontas)
    requires Coletar(codigo, queries, consulta, ScraperCore).Success?
    requires Coletar(codigo, queries, consulta, ScraperCore).value.0 == VNone
    requires Coletar(codigo, queries, consulta, BackendScraping).Success?
    requires Coletar(codigo, queries, consulta, BackendScraping).value.0 == VNone
    ensures RunDesde([codigo], arquivo, prontas, queries, consulta, ScraperCore) == arquivo
    ensures RunDesde([codigo], arquivo, prontas, queries, consulta, BackendScraping)
            == Assign(arquivo, "null", VDict(Coletar(codigo, queries, consulta, BackendScraping).value.1))
  {
    assert [codigo][1..] == [];
  }
}
