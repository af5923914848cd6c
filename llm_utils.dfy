/**
  backend/utils/llm_utils.py, `formatar_dados`: the records an agent
  fetched, written as a pipe-separated text table for the prompt. The
  prompt templates of the same file are constants and not part of this
  model.
*/
module LlmUtils {
  import opened Wrappers
  import opened PyText
  import opened PyDict
  import opened PyValue

  const SemDados: string := "Nenhum dado disponível."

  /** One body line: the record's value under each column (`str(value)`, or
      "" when the record lacks the column), joined by " | ". */
  function Celulas(linha: Dict<string, Value>, colunas: seq<string>): (r: seq<string>)
    ensures |r| == |colunas|
    ensures forall j :: 0 <= j < |colunas| ==>
              r[j] == if HasKey(linha, colunas[j]) then Str(Get(linha, colunas[j]).value) else ""
  {
    seq(|colunas|, j requires 0 <= j < |colunas| => Str(GetOr(linha, colunas[j], VStr(""))))
  }

  /** The body lines; None where a record is not a dict (`.get` raises). */
  function Corpo(linhas: seq<Value>, colunas: seq<string>): (r: Option<seq<string>>)
    ensures r.Some? <==> forall i :: 0 <= i < |linhas| ==> linhas[i].VDict?
    ensures r.Some? ==> |r.value| == |linhas|
    ensures r.Some? ==> forall i :: 0 <= i < |linhas| ==>
              r.value[i] == Join(" | ", Celulas(linhas[i].entries, colunas))
    decreases |linhas|
  {
    if linhas == [] then Some([])
    else if !linhas[0].VDict? then None
    else
      match Corpo(linhas[1..], colunas)
      case None => None
      case Some(resto) => Some([Join(" | ", Celulas(linhas[0].entries, colunas))] + resto)
  }

  /** The separator line: one "---" per column. */
  function Separador(n: nat): string {
    Join(" | ", seq(n, _ => "---"))
  }

  lemma SeparadorLength(n: nat)
    ensures |Separador(n)| == if n == 0 then 0 else 6 * n - 3
  {
    if n >= 1 {
      JoinRepeatLength(" | ", "---", n);
    }
  }

  /** The table for a non-empty list of records: the first record's keys are
      the columns. None where the first element is not a dict (no `.keys()`)
      or a later one is not (no `.get`). */
  function Tabela(linhas: seq<Value>): (r: Option<string>)
    requires linhas != []
    ensures r.Some? <==> forall i :: 0 <= i < |linhas| ==> linhas[i].VDict?
    ensures r.Some? ==>
              var colunas := Keys(linhas[0].entries);
              r.value == Join(" | ", colunas) + "\n" + Separador(|colunas|) + "\n"
                         + Join("\n", Corpo(linhas, colunas).value)
  {
    if !linhas[0].VDict? then None
    else
      var colunas := Keys(linhas[0].entries);
      match Corpo(linhas, colunas)
      case None => None
      case Some(corpo) =>
        Some(Join(" | ", colunas) + "\n" + Separador(|colunas|) + "\n" + Join("\n", corpo))
  }

  /** `formatar_dados(dados)`; None where it raises. A context dict gives its
      "context" value as it is, whatever its type. */
  function FormatarDados(dados: Value): (r: Option<Value>)
    ensures !Truthy(dados) ==> r == Some(VStr(SemDados))
    ensures Truthy(dados) && dados.VDict? && HasKey(dados.entries, "context") ==>
              r == Get(dados.entries, "context")
    ensures Truthy(dados) && !dados.VDict? && !dados.VList? ==> r.None?
  {
    if !Truthy(dados) then Some(VStr(SemDados))
    else
      match dados
      case VDict(d) =>
        if HasKey(d, "context") then Get(d, "context")
        else
          var t := Tabela([dados]);
          if t.Some? then Some(VStr(t.value)) else None
      case VList(items) =>
        var t := Tabela(items);
        if t.Some? then Some(VStr(t.value)) else None
      case _ => None
  }

  /** A single dict without "context" is formatted as the one-record list. */
  lemma DictIsOneRowList(d: Dict<string, Value>)
    requires d != [] && !HasKey(d, "context")
    ensures FormatarDados(VDict(d)) == FormatarDados(VList([VDict(d)]))
  {
  }

  /** No text of the table holds a line break. */
  predicate SemQuebra(s: string) {
    CountChar(s, '\n') == 0
  }

  predicate TodasSemQuebra(xs: seq<string>) {
    forall j :: 0 <= j < |xs| ==> SemQuebra(xs[j])
  }

  /** Three lines joined by two line breaks. */
  lemma TresPartes(a: string, b: string, c: string)
    ensures CountChar(a + "\n" + b + "\n" + c, '\n') == CountChar(a, '\n') + CountChar(b, '\n') + CountChar(c, '\n') + 2
  {
    assert CountChar("\n", '\n') == 1;
    CountCharAppend(a, "\n", '\n');
    CountCharAppend(a + "\n", b, '\n');
    CountCharAppend(a + "\n" + b, "\n", '\n');
    CountCharAppend(a + "\n" + b + "\n", c, '\n');
  }

  /** A line joined by " | " from parts without line breaks has none. */
  lemma LinhaSemQuebra(parts: seq<string>)
    requires TodasSemQuebra(parts)
    ensures SemQuebra(Join(" | ", parts))
  {
    assert CountChar(" | ", '\n') == 0;
    JoinCount(" | ", parts, '\n');
  }

  /** When no column name and no cell holds a line break, the table has a
      header line, a separator line and one line per record. */
  lemma TabelaLines(linhas: seq<Value>)
    requires linhas != [] && forall i :: 0 <= i < |linhas| ==> linhas[i].VDict?
    requires TodasSemQuebra(Keys(linhas[0].entries))
    requires forall i :: 0 <= i < |linhas| ==>
               TodasSemQuebra(Celulas(linhas[i].entries, Keys(linhas[0].entries)))
    ensures CountChar(Tabela(linhas).value, '\n') + 1 == |linhas| + 2
  {
    var colunas := Keys(linhas[0].entries);
    var corpo := Corpo(linhas, colunas).value;
    LinhaSemQuebra(colunas);
    assert SemQuebra("---");
    LinhaSemQuebra(seq(|colunas|, _ => "---"));
    forall i | 0 <= i < |corpo| ensures SemQuebra(corpo[i]) {
      LinhaSemQuebra(Celulas(linhas[i].entries, colunas));
    }
    assert CountChar("\n", '\n') == 1;
    JoinCount("\n", corpo, '\n');
    TresPartes(Join(" | ", colunas), Separador(|colunas|), Join("\n", corpo));
  }
}
