/**
  scraper/core/json_to_csv.py: the scraped JSON (city key -> record) turned
  into the rows of the municipality CSV. Reading the JSON file and writing
  the CSV file are not part of this model; the rows are.
*/
module JsonToCsv {
  import opened Wrappers
  import opened PyText
  import opened PyDict
  import opened PyValue

  /** The suffix the scraper leaves on every key. */
  const SufixoPopulacao: string := " (População residente estimada)"

  predicate IsUpperLetter(c: char) {
    'A' <= c <= 'Z'
  }

  /** `\(([A-Z]{2})\)` matches at `i`: the two letters, if so. */
  function GrupoUfAt(s: string, i: nat): (r: Option<string>)
    ensures r.Some? <==> i + 4 <= |s| && s[i] == '(' && IsUpperLetter(s[i + 1])
                         && IsUpperLetter(s[i + 2]) && s[i + 3] == ')'
    ensures r.Some? ==> r.value == s[i + 1..i + 3]
  {
    if i + 4 <= |s| && s[i] == '(' && IsUpperLetter(s[i + 1]) && IsUpperLetter(s[i + 2]) && s[i + 3] == ')'
    then Some(s[i + 1..i + 3])
    else None
  }

  /** The pattern tried at each position of `s`. */
  function GruposUf(s: string): nat -> Option<string> {
    (i: nat) => GrupoUfAt(s, i)
  }

  /** `re.search(r"\(([A-Z]{2})\)", key)`: the group at the leftmost match. */
  function PrimeiroGrupoUf(s: string): Option<string> {
    Leftmost(GruposUf(s), 0, |s|)
  }

  /** ` \([A-Z]{2}\)` occurs at `i`. */
  predicate SufixoUfAt(s: string, i: int) {
    0 <= i && i + 5 <= |s| && s[i] == ' ' && GrupoUfAt(s, i + 1).Some?
  }

  /** `re.sub(r" \([A-Z]{2}\)$", "", s)`: `$` matches at the very end and
      also just before a final line break, so at most one occurrence is
      removed, and a final line break is kept. */
  function SemUfFinal(s: string): (r: string)
    ensures SufixoUfAt(s, |s| - 5) ==> r == s[..|s| - 5]
    ensures !SufixoUfAt(s, |s| - 5) && |s| >= 1 && s[|s| - 1] == '\n' && SufixoUfAt(s, |s| - 6) ==>
              r == s[..|s| - 6] + "\n"
    ensures !SufixoUfAt(s, |s| - 5) && !(|s| >= 1 && s[|s| - 1] == '\n' && SufixoUfAt(s, |s| - 6)) ==> r == s
  {
    if SufixoUfAt(s, |s| - 5) then s[..|s| - 5]
    else if |s| >= 1 && s[|s| - 1] == '\n' && SufixoUfAt(s, |s| - 6) then s[..|s| - 6] + "\n"
    else s
  }

  /** `parse_city_key(key)`: (city name, state code). The state is the FIRST
      "(XX)" group of the key, or "" without one. */
  function ParseCityKey(key: string): (r: (string, string))
    ensures PrimeiroGrupoUf(key).None? ==> r.1 == ""
    ensures PrimeiroGrupoUf(key).Some? ==> r.1 == PrimeiroGrupoUf(key).value
    ensures r.0 == SemUfFinal(ReplaceAll(key, SufixoPopulacao, ""))
  {
    var m := PrimeiroGrupoUf(key);
    var estado := if m.Some? then m.value else "";
    var nome := ReplaceAll(key, SufixoPopulacao, "");
    (SemUfFinal(nome), estado)
  }

  /** The state is "" exactly when no "(XX)" group occurs. */
  lemma ParseCityKeySemEstado(key: string)
    ensures ParseCityKey(key).1 == "" <==> forall i :: 0 <= i <= |key| ==> GrupoUfAt(key, i).None?
  {
    LeftmostNone(GruposUf(key), 0, |key|);
    forall i | 0 <= i <= |key| ensures GruposUf(key)(i) == GrupoUfAt(key, i) {
    }
    if PrimeiroGrupoUf(key).Some? {
      PrimeiroGrupoUfAt(key);
    }
  }

  /** Otherwise it is the group at the first position where one occurs. */
  lemma PrimeiroGrupoUfAt(key: string)
    requires PrimeiroGrupoUf(key).Some?
    ensures exists i :: 0 <= i <= |key| && GrupoUfAt(key, i) == PrimeiroGrupoUf(key)
                        && forall j :: 0 <= j < i ==> GrupoUfAt(key, j).None?
    ensures |PrimeiroGrupoUf(key).value| == 2
  {
    var at := GruposUf(key);
    LeftmostIsFirst(at, 0, |key|);
    var j :| 0 <= j <= |key| && at(j) == PrimeiroGrupoUf(key) && forall j' :: 0 <= j' < j ==> at(j').None?;
    assert GrupoUfAt(key, j) == PrimeiroGrupoUf(key);
    forall j' | 0 <= j' < j ensures GrupoUfAt(key, j').None? {
      assert at(j').None?;
    }
  }

  /** `replace` on a text that ends with the pattern and holds no other
      occurrence of it: only that final occurrence is replaced. */
  lemma {:induction false} ReplaceAllFinal(a: string, pat: string, rep: string)
    requires |pat| > 0
    requires forall k :: 0 <= k < |a| ==> !OccursAt(a + pat, pat, k)
    ensures ReplaceAll(a + pat, pat, rep) == a + rep
    decreases |a|
  {
    var s := a + pat;
    if a == [] {
      assert s[..|pat|] == pat;
      assert s[|pat|..] == [];
    } else {
      assert !OccursAt(s, pat, 0);
      assert s[1..] == a[1..] + pat;
      forall k | 0 <= k < |a[1..]| ensures !OccursAt(a[1..] + pat, pat, k) {
        assert !OccursAt(s, pat, k + 1);
        assert (a[1..] + pat)[k..k + |pat|] == s[k + 1..k + 1 + |pat|];
      }
      ReplaceAllFinal(a[1..], pat, rep);
      assert a + rep == [a[0]] + (a[1..] + rep);
    }
  }

  /** A text made of a name without an opening parenthesis and " (XX)"
      holds no occurrence of a pattern that starts with " (" and has a
      lower-case letter as its fourth character, except past its end. */
  lemma {:induction false} SemPadraoAntes(nome: string, uf: string, pat: string)
    requires forall i :: 0 <= i < |nome| ==> nome[i] != '('
    requires |uf| == 2 && IsUpperLetter(uf[0]) && IsUpperLetter(uf[1])
    requires |pat| >= 4 && pat[0] == ' ' && pat[1] == '(' && 'a' <= pat[3] <= 'z'
    ensures forall k :: 0 <= k < |nome| + 5 ==> !OccursAt(nome + " (" + uf + ")" + pat, pat, k)
  {
    var comUf := nome + " (" + uf + ")";
    var key := comUf + pat;
    var n := |nome|;
    assert key[n] == ' ' && key[n + 1] == '(' && key[n + 2] == uf[0] && key[n + 3] == uf[1] && key[n + 4] == ')';
    forall k | 0 <= k < n + 5 ensures !OccursAt(key, pat, k) {
      if k + |pat| <= |key| {
        var w := key[k..k + |pat|];
        if k + 1 < n {
          assert w[1] == nome[k + 1];
          assert w[1] != pat[1];
        } else if k + 1 == n {
          assert w[1] != pat[1];
        } else if k == n {
          assert w[3] != pat[3];
        } else {
          assert w[0] != pat[0];
        }
      }
    }
  }

  /** A key as the scraper writes it, "<name> (<UF>) (População residente
      estimada)", parses back to its name and state, for every name without
      an opening parenthesis. */
  lemma ParseCityKeyRoundTrip(nome: string, uf: string)
    requires forall i :: 0 <= i < |nome| ==> nome[i] != '('
    requires |uf| == 2 && IsUpperLetter(uf[0]) && IsUpperLetter(uf[1])
    ensures ParseCityKey(nome + " (" + uf + ")" + SufixoPopulacao) == (nome, uf)
  {
    var comUf := nome + " (" + uf + ")";
    var key := comUf + SufixoPopulacao;
    var n := |nome|;
    assert SufixoPopulacao[0] == ' ' && SufixoPopulacao[1] == '(' && SufixoPopulacao[3] == 'o';
    SemPadraoAntes(nome, uf, SufixoPopulacao);
    ReplaceAllFinal(comUf, SufixoPopulacao, "");
    assert comUf + "" == comUf;
    assert comUf[n] == ' ' && comUf[n + 1] == '(' && comUf[n + 2] == uf[0] && comUf[n + 3] == uf[1] && comUf[n + 4] == ')';
    assert SufixoUfAt(comUf, |comUf| - 5);
    assert comUf[..n] == nome;
    // the state group: the first '(' of the key is the one before `uf`
    assert key[n + 1] == comUf[n + 1] && key[n + 2] == uf[0] && key[n + 3] == uf[1] && key[n + 4] == ')';
    assert key[n + 2..n + 4] == uf;
    assert GrupoUfAt(key, n + 1) == Some(uf);
    forall j | 0 <= j < n + 1 ensures GrupoUfAt(key, j).None? {
      assert key[j] == comUf[j];
    }
    LeftmostAt(GruposUf(key), 0, n + 1, |key|);
  }

  /** The key of the first city of the scraped file. */
  lemma ParseCityKeyExample(key: string, nome: string)
    requires nome == "Alta Floresta D'Oeste"
    requires key == nome + " (RO)" + SufixoPopulacao
    ensures ParseCityKey(key) == (nome, "RO")
  {
    var uf := "RO";
    assert " (RO)" == " (" + uf + ")";
    assert key == nome + " (" + uf + ")" + SufixoPopulacao;
    assert forall i :: 0 <= i < |nome| ==> nome[i] != '(';
    ParseCityKeyRoundTrip(nome, uf);
  }

  /** One row of the CSV; a column the record lacks holds None. */
  datatype Linha = Linha(estado: string, cidade: string, codigoIbge: Value,
                         populacao: Value, anoPopulacao: Value, pib: Value, anoPib: Value)

  /** The CSV header. */
  const Colunas: seq<string> := ["Estado", "Cidade", "Código_IBGE", "População",
                                  "Ano_População", "PIB", "Ano_PIB"]

  /** The row as `csv.DictWriter` receives it. */
  function Campos(l: Linha): (r: Dict<string, Value>)
    ensures Keys(r) == Colunas
  {
    [("Estado", VStr(l.estado)), ("Cidade", VStr(l.cidade)), ("Código_IBGE", l.codigoIbge),
     ("População", l.populacao), ("Ano_População", l.anoPopulacao),
     ("PIB", l.pib), ("Ano_PIB", l.anoPib)]
  }

  /** `info.get(k, {})` followed by `.get`: None where the value found is
      not a dict (`.get` raises); a missing key behaves as an empty dict. */
  function SubDict(info: Dict<string, Value>, k: string): Option<Dict<string, Value>> {
    match GetOr(info, k, VDict([]))
    case VDict(d) => Some(d)
    case _ => None
  }

  /** The row for one `(key, info)` item; None where a `.get` raises. */
  function LinhaDe(key: string, info: Value): Option<Linha> {
    if !info.VDict? then None
    else
      var pop := SubDict(info.entries, "populacao");
      var pib := SubDict(info.entries, "pib_per_capita");
      if pop.None? || pib.None? then None
      else
        var nomeUf := ParseCityKey(key);
        Some(Linha(nomeUf.1, nomeUf.0, GetOr(info.entries, "codigo_ibge", VNone),
                   GetOr(pop.value, "valor", VNone), GetOr(pop.value, "ano", VNone),
                   GetOr(pib.value, "valor", VNone), GetOr(pib.value, "ano", VNone)))
  }

  /** The name and state of a row come from its key; a record without
      population or GDP data gives None in both of their columns, and one
      without a code gives None for the code. */
  lemma LinhaDeMeaning(key: string, info: Dict<string, Value>)
    ensures LinhaDe(key, VDict(info)).Some? <==> SubDict(info, "populacao").Some? && SubDict(info, "pib_per_capita").Some?
    ensures LinhaDe(key, VDict(info)).Some? ==>
              (LinhaDe(key, VDict(info)).value.cidade, LinhaDe(key, VDict(info)).value.estado) == ParseCityKey(key)
    ensures !HasKey(info, "populacao") && SubDict(info, "pib_per_capita").Some? ==>
              LinhaDe(key, VDict(info)).value.populacao == VNone
              && LinhaDe(key, VDict(info)).value.anoPopulacao == VNone
    ensures !HasKey(info, "pib_per_capita") && SubDict(info, "populacao").Some? ==>
              LinhaDe(key, VDict(info)).value.pib == VNone
              && LinhaDe(key, VDict(info)).value.anoPib == VNone
    ensures !HasKey(info, "codigo_ibge") && LinhaDe(key, VDict(info)).Some? ==>
              LinhaDe(key, VDict(info)).value.codigoIbge == VNone
  {
    var vazio: Dict<string, Value> := [];
    assert !HasKey(vazio, "valor") && !HasKey(vazio, "ano");
  }

  /** The row loop of `main`: one row per item of the JSON object, in
      order; None where a record or one of its sub-records is not a dict. */
  method Linhas(data: Dict<string, Value>) returns (r: Option<seq<Linha>>)
    ensures r.Some? <==> forall i :: 0 <= i < |data| ==> LinhaDe(data[i].0, data[i].1).Some?
    ensures r.Some? ==> |r.value| == |data|
    ensures r.Some? ==> forall i :: 0 <= i < |data| ==> r.value[i] == LinhaDe(data[i].0, data[i].1).value
  {
    var rows: seq<Linha> := [];
    for i := 0 to |data|
      invariant |rows| == i
      invariant forall j :: 0 <= j < i ==> LinhaDe(data[j].0, data[j].1).Some?
                                           && rows[j] == LinhaDe(data[j].0, data[j].1).value
    {
      var linha := LinhaDe(data[i].0, data[i].1);
      if linha.None? {
        return None;
      }
      rows := rows + [linha.value];
    }
    return Some(rows);
  }
}
