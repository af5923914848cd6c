/**
  backend/utils/formatters.py: the display name of the agent that answered,
  and the context text and source list handed to the language model.
*/
module Formatters {
  import opened Wrappers
  import opened PyText
  import opened PyDict
  import opened PyValue
  import Interpreter

  /** `NOMES_AGENTES`: class name -> display name. */
  const NomesAgentes: Dict<string, string> := [
    ("EducacaoAgent", "Educação"),
    ("ComparativeAgent", "Dashboard Comparativo"),
    ("PopulacaoAgent", "População"),
    ("EconomiaAgent", "Economia"),
    ("InstitucionalAgent", "Institucional"),
    ("LLM", "LLM (Fallback)")
  ]

  const Fallback: string := "LLM (Fallback)"

  /** What `nome_agente_formatado` can be given: a string, None, or an
      object, known by its class name. */
  datatype AgenteArg = Texto(s: string) | Nenhum | Objeto(classe: string)

  /** `nome_agente_formatado(agente)`. */
  function NomeAgenteFormatado(agente: AgenteArg): (r: string)
    ensures agente.Texto? && HasKey(NomesAgentes, agente.s) ==> (agente.s, r) in NomesAgentes
    ensures agente.Texto? && !HasKey(NomesAgentes, agente.s) ==> r == Fallback
    ensures agente.Nenhum? ==> r == Fallback
    ensures agente.Objeto? && HasKey(NomesAgentes, agente.classe) ==> (agente.classe, r) in NomesAgentes
    ensures agente.Objeto? && !HasKey(NomesAgentes, agente.classe) ==> r == agente.classe
  {
    match agente
    case Texto(s) =>
      GetIsItem(NomesAgentes, s);
      Get(NomesAgentes, s).GetOr(Fallback)
    case Nenhum => Get(NomesAgentes, "None").GetOr(Fallback)
    case Objeto(classe) =>
      GetIsItem(NomesAgentes, classe);
      Get(NomesAgentes, classe).GetOr(classe)
  }

  /** The class name of each agent the dispatcher picks. */
  function NomeClasse(a: Interpreter.Agente): string {
    match a
    case EducacaoAgent => "EducacaoAgent"
    case PopulacaoAgent => "PopulacaoAgent"
    case EconomiaAgent => "EconomiaAgent"
    case ComparativeAgent => "ComparativeAgent"
    case InstitucionalAgent => "InstitucionalAgent"
  }

  /** Every agent the dispatcher picks is shown by a display name of the
      table, never by its class name and never as the fallback; a string or
      an object of the same class name is shown alike. */
  lemma AgentesDespachadosTemNome(a: Interpreter.Agente)
    ensures NomeAgenteFormatado(Objeto(NomeClasse(a))) != NomeClasse(a)
    ensures NomeAgenteFormatado(Objeto(NomeClasse(a))) != Fallback
    ensures NomeAgenteFormatado(Objeto(NomeClasse(a))) == NomeAgenteFormatado(Texto(NomeClasse(a)))
  {
    var i := match a
             case EducacaoAgent => 0
             case ComparativeAgent => 1
             case PopulacaoAgent => 2
             case EconomiaAgent => 3
             case InstitucionalAgent => 4;
    assert NomesAgentes[i].0 == NomeClasse(a);
    assert Get(NomesAgentes, NomeClasse(a)) == Some(NomesAgentes[i].1);
  }

  /** An agent class the table does not name is shown by its class name,
      and a string it does not name as the fallback. */
  lemma TecnicaAgentExamples()
    ensures NomeAgenteFormatado(Objeto("TecnicaAgent")) == "TecnicaAgent"
    ensures NomeAgenteFormatado(Texto("TecnicaAgent")) == Fallback
  {
    assert !HasKey(NomesAgentes, "TecnicaAgent");
  }

  /** None is looked up as "None", which the table does not name; and the
      string "LLM" is shown as the fallback through the table itself. */
  lemma NenhumExamples()
    ensures NomeAgenteFormatado(Nenhum) == Fallback
    ensures NomeAgenteFormatado(Texto("LLM")) == Fallback
  {
    assert NomesAgentes[5] == ("LLM", Fallback);
  }

  const SeparadorDocumentos: string := "\n---\n"

  /** `meta.get("arquivo", "Desconhecido")` */
  function Arquivo(meta: Dict<string, Value>): Value {
    GetOr(meta, "arquivo", VStr("Desconhecido"))
  }

  /** What a set compares its elements by: `True` is the element `1` and
      `False` the element `0`. */
  function Chave(v: Value): Value {
    if v.VBool? then VInt(if v.b then 1 else 0) else v
  }

  /** Lists and dicts cannot be set elements. */
  predicate Hashable(v: Value) {
    !v.VList? && !v.VDict?
  }

  /** Between set elements, equal keys are Python's `==`. */
  lemma ChaveIsEq(a: Value, b: Value)
    requires Hashable(a) && Hashable(b)
    ensures Chave(a) == Chave(b) <==> Eq(a, b)
  {
  }

  /** `s.add(v)`: an element equal to `v` already there stays, else `v` joins. */
  function Adicionar(s: set<Value>, v: Value): set<Value> {
    if exists w :: w in s && Chave(w) == Chave(v) then s else s + {v}
  }

  /** `set(meta.get("arquivo", "Desconhecido") for meta in metadatas)`: the
      files are added in order, and the first unhashable one raises. */
  function Fontes(metadatas: seq<Dict<string, Value>>): Result<set<Value>>
    decreases |metadatas|
  {
    if metadatas == [] then Success({})
    else
      match Fontes(metadatas[..|metadatas| - 1])
      case Failure(e) => Failure(e)
      case Success(s) =>
        var v := Arquivo(metadatas[|metadatas| - 1]);
        if Hashable(v) then Success(Adicionar(s, v)) else Failure("TypeError")
  }

  /** The file of every metadata, in order. */
  function Arquivos(metadatas: seq<Dict<string, Value>>): (r: seq<Value>)
    ensures |r| == |metadatas|
    ensures forall i :: 0 <= i < |metadatas| ==> r[i] == Arquivo(metadatas[i])
  {
    seq(|metadatas|, i requires 0 <= i < |metadatas| => Arquivo(metadatas[i]))
  }

  /** `v` is one of `xs`, and no earlier one has its key. */
  ghost predicate PrimeiroDaChave(v: Value, xs: seq<Value>) {
    exists i :: 0 <= i < |xs| && v == xs[i] && forall j :: 0 <= j < i ==> Chave(xs[j]) != Chave(v)
  }

  /** Some element of `s` has the key `k`. */
  ghost predicate TemChave(s: set<Value>, k: Value) {
    exists v :: v in s && Chave(v) == k
  }

  /** What `set(xs)` holds: the first element of each key of `xs`, every key
      of `xs`, each key once, so no more elements than `xs` has. */
  ghost predicate ConjuntoDe(s: set<Value>, xs: seq<Value>) {
    && (forall v :: v in s ==> PrimeiroDaChave(v, xs))
    && (forall i :: 0 <= i < |xs| ==> TemChave(s, Chave(xs[i])))
    && (forall v, w :: v in s && w in s && Chave(v) == Chave(w) ==> v == w)
    && |s| <= |xs|
  }

  /** Adding one more hashable element keeps the set what `set` builds. */
  lemma AdicionarConjuntoDe(s: set<Value>, xs: seq<Value>, x: Value)
    requires ConjuntoDe(s, xs)
    ensures ConjuntoDe(Adicionar(s, x), xs + [x])
  {
    var ys := xs + [x];
    assert forall i :: 0 <= i < |xs| ==> ys[i] == xs[i];
    forall v | v in s ensures PrimeiroDaChave(v, ys) {
      var i :| 0 <= i < |xs| && v == xs[i] && forall j :: 0 <= j < i ==> Chave(xs[j]) != Chave(v);
      assert v == ys[i];
    }
    if !TemChave(s, Chave(x)) {
      assert x !in s;
      forall j | 0 <= j < |xs| ensures Chave(ys[j]) != Chave(x) {
        assert TemChave(s, Chave(xs[j]));
      }
      assert ys[|xs|] == x;
      assert PrimeiroDaChave(x, ys);
    } else {
      var w :| w in s && Chave(w) == Chave(x);
      assert TemChave(s, Chave(ys[|xs|]));
    }
  }

  /** The set is built exactly when every file is hashable, and then it is
      what `set` makes of the files. */
  lemma {:induction false} FontesMeaning(metadatas: seq<Dict<string, Value>>)
    ensures Fontes(metadatas).Success? <==> forall i :: 0 <= i < |metadatas| ==> Hashable(Arquivo(metadatas[i]))
    ensures Fontes(metadatas).Success? ==> ConjuntoDe(Fontes(metadatas).value, Arquivos(metadatas))
    decreases |metadatas|
  {
    if metadatas != [] {
      var init := metadatas[..|metadatas| - 1];
      FontesMeaning(init);
      assert forall i :: 0 <= i < |init| ==> metadatas[i] == init[i];
      var x := Arquivo(metadatas[|init|]);
      assert Arquivos(metadatas) == Arquivos(init) + [x];
      if Fontes(init).Success? && Hashable(x) {
        AdicionarConjuntoDe(Fontes(init).value, Arquivos(init), x);
      }
    }
  }

  /** `1` and `True` are one element: the first one given stays. */
  lemma FontesMergesOneAndTrue()
    ensures Fontes([[("arquivo", VInt(1))], [("arquivo", VBool(true))]]) == Success({VInt(1)})
  {
    var m: seq<Dict<string, Value>> := [[("arquivo", VInt(1))], [("arquivo", VBool(true))]];
    assert Arquivo(m[0]) == VInt(1);
    assert Arquivo(m[1]) == VBool(true);
    assert m[..1][..0] == [];
    assert m[..1] == [m[0]];
    assert Fontes(m[..1][..0]) == Success({});
    assert Adicionar({}, VInt(1)) == {VInt(1)};
    assert Fontes(m[..1]) == Success({VInt(1)});
    assert Chave(VBool(true)) == Chave(VInt(1));
    assert Adicionar({VInt(1)}, VBool(true)) == {VInt(1)};
  }

  /** A list as a file name raises. */
  lemma FontesListRaises()
    ensures Fontes([[("arquivo", VList([]))]]).Failure?
  {
    var m: seq<Dict<string, Value>> := [[("arquivo", VList([]))]];
    assert Arquivo(m[0]) == VList([]);
    assert m[..0] == [];
  }

  /** `list(s)`: the elements of a set, each once, in an order the set
      chooses. */
  method Listar(s: set<Value>) returns (xs: seq<Value>)
    ensures |xs| == |s|
    ensures forall v :: v in xs <==> v in s
    ensures forall i, j :: 0 <= i < j < |xs| ==> xs[i] != xs[j]
  {
    xs := [];
    var resto := s;
    while resto != {}
      invariant resto <= s
      invariant |xs| + |resto| == |s|
      invariant forall v :: v in xs <==> v in s && v !in resto
      invariant forall i, j :: 0 <= i < j < |xs| ==> xs[i] != xs[j]
      decreases |resto|
    {
      var v :| v in resto;
      xs := xs + [v];
      resto := resto - {v};
    }
  }

  /** `formatar_contexto_para_llm(documentos, metadatas)`: the documents
      joined by "\n---\n", and the distinct source files, or the
      `TypeError` of a file that cannot be a set element. */
  method FormatarContextoParaLlm(documentos: seq<string>, metadatas: seq<Dict<string, Value>>)
    returns (r: Result<(string, seq<Value>)>)
    ensures r.Success? <==> forall i :: 0 <= i < |metadatas| ==> Hashable(Arquivo(metadatas[i]))
    ensures r.Success? ==> r.value.0 == Join(SeparadorDocumentos, documentos)
    ensures r.Success? && documentos == [] ==> r.value.0 == ""
    ensures r.Success? ==> forall i :: 0 <= i < |documentos| ==> Contains(r.value.0, documentos[i])
    ensures r.Success? && |documentos| == 1 ==> r.value.0 == documentos[0]
    ensures r.Success? ==> ConjuntoDe((set v | v in r.value.1), Arquivos(metadatas))
    ensures r.Success? ==> forall i, j :: 0 <= i < j < |r.value.1| ==> r.value.1[i] != r.value.1[j]
  {
    var contexto := Join(SeparadorDocumentos, documentos);
    forall i | 0 <= i < |documentos| ensures Contains(contexto, documentos[i]) {
      JoinContainsPart(SeparadorDocumentos, documentos, i);
    }
    FontesMeaning(metadatas);
    var conjunto := Fontes(metadatas);
    if conjunto.Failure? {
      return Failure(conjunto.error);
    }
    var fontes := Listar(conjunto.value);
    assert (set v | v in fontes) == conjunto.value;
    return Success((contexto, fontes));
  }
}
