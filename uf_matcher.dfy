/**
  backend/core/router/uf_matcher.py: its own copy of the state table, its own
  `normalizar` (which does not trim), and the same first-match state search.
*/
module UfMatcher {
  import opened Wrappers
  import opened PyText
  import opened PyDict
  import opened StateSearch

  /** The module's ESTADOS literal: state code -> search terms, in order. */
  const Estados: Dict<string, seq<string>> := [
    ("AC", ["acre", "ac"]),
    ("AL", ["alagoas", "al"]),
    ("AP", ["amapa", "ap"]),
    ("AM", ["amazonas", "am"]),
    ("BA", ["bahia", "ba"]),
    ("CE", ["ceara", "ce"]),
    ("DF", ["distrito federal", "df", "brasilia"]),
    ("ES", ["espirito santo", "es"]),
    ("GO", ["goias", "go"]),
    ("MA", ["maranhao", "ma"]),
    ("MT", ["mato grosso", "mt"]),
    ("MS", ["mato grosso do sul", "ms"]),
    ("MG", ["minas gerais", "mg"]),
    ("PA", ["para", "pa"]),
    ("PB", ["paraiba", "pb"]),
    ("PR", ["parana", "pr"]),
    ("PE", ["pernambuco", "pe"]),
    ("PI", ["piaui", "pi"]),
    ("RJ", ["rio de janeiro", "rj", "carioca"]),
    ("RN", ["rio grande do norte", "rn"]),
    ("RS", ["rio grande do sul", "rs", "gaucho", "gaúcho"]),
    ("RO", ["rondonia", "ro"]),
    ("RR", ["roraima", "rr"]),
    ("SC", ["santa catarina", "sc", "catarinense"]),
    ("SP", ["sao paulo", "sp", "paulista"]),
    ("SE", ["sergipe", "se"]),
    ("TO", ["tocantins", "to"])
  ]

  lemma CodesDiffer00(i: int, j: int)
    requires 0 <= i < 9 && 0 <= j < 9 && i < j
    ensures Estados[i].0 != Estados[j].0
  {
    assert i in {0, 1, 2, 3, 4, 5, 6, 7, 8};
    assert j in {0, 1, 2, 3, 4, 5, 6, 7, 8};
  }

  lemma CodesDiffer01(i: int, j: int)
    requires 0 <= i < 9 && 9 <= j < 18 && i < j
    ensures Estados[i].0 != Estados[j].0
  {
    assert i in {0, 1, 2, 3, 4, 5, 6, 7, 8};
    assert j in {9, 10, 11, 12, 13, 14, 15, 16, 17};
  }

  lemma CodesDiffer02(i: int, j: int)
    requires 0 <= i < 9 && 18 <= j < 27 && i < j
    ensures Estados[i].0 != Estados[j].0
  {
    assert i in {0, 1, 2, 3, 4, 5, 6, 7, 8};
    assert j in {18, 19, 20, 21, 22, 23, 24, 25, 26};
  }

  lemma CodesDiffer11(i: int, j: int)
    requires 9 <= i < 18 && 9 <= j < 18 && i < j
    ensures Estados[i].0 != Estados[j].0
  {
    assert i in {9, 10, 11, 12, 13, 14, 15, 16, 17};
    assert j in {9, 10, 11, 12, 13, 14, 15, 16, 17};
  }

  lemma CodesDiffer12(i: int, j: int)
    requires 9 <= i < 18 && 18 <= j < 27 && i < j
    ensures Estados[i].0 != Estados[j].0
  {
    assert i in {9, 10, 11, 12, 13, 14, 15, 16, 17};
    assert j in {18, 19, 20, 21, 22, 23, 24, 25, 26};
  }

  lemma CodesDiffer22(i: int, j: int)
    requires 18 <= i < 27 && 18 <= j < 27 && i < j
    ensures Estados[i].0 != Estados[j].0
  {
    assert i in {18, 19, 20, 21, 22, 23, 24, 25, 26};
    assert j in {18, 19, 20, 21, 22, 23, 24, 25, 26};
  }

  lemma Synonyms(i: int)
    requires 0 <= i < |Estados|
    ensures |Estados[i].1| >= 2
  {
    assert i in {0, 1, 2, 3, 4, 5, 6, 7, 8, 9, 10, 11, 12, 13, 14, 15, 16, 17, 18, 19, 20, 21, 22, 23, 24, 25, 26};
  }

  /** The table has 27 distinct state codes, each with at least two terms,
      and a dict built from it is the table itself. */
  lemma EstadosShape()
    ensures |Estados| == 27
    ensures UniqueKeys(Estados)
    ensures FromItems(Estados) == Estados
    ensures forall i :: 0 <= i < |Estados| ==> |Estados[i].1| >= 2
  {
    forall i, j | 0 <= i < j < |Estados|
      ensures Estados[i].0 != Estados[j].0
    {
      if 0 <= i < 9 && 0 <= j < 9 {
        CodesDiffer00(i, j);
      } else if 0 <= i < 9 && 9 <= j < 18 {
        CodesDiffer01(i, j);
      } else if 0 <= i < 9 && 18 <= j < 27 {
        CodesDiffer02(i, j);
      } else if 9 <= i < 18 && 9 <= j < 18 {
        CodesDiffer11(i, j);
      } else if 9 <= i < 18 && 18 <= j < 27 {
        CodesDiffer12(i, j);
      } else if 18 <= i < 27 && 18 <= j < 27 {
        CodesDiffer22(i, j);
      }
    }
    FromItemsOfUnique(Estados);
    forall i | 0 <= i < |Estados| ensures |Estados[i].1| >= 2 {
      Synonyms(i);
    }
  }

  /** The module's `normalizar`: lower-case, then decompose and drop what is
      not ASCII; unlike backend/utils/parser.py it does not trim. */
  function Normalizar(texto: string): (r: string)
    ensures IsAsciiString(r)
    ensures NoUpperAscii(r)
  {
    AsciiFoldOfLowerHasNoUpper(texto);
    AsciiFold(Lower(texto))
  }

  /** Normalising twice is normalising once. */
  lemma NormalizarIdempotent(texto: string)
    ensures Normalizar(Normalizar(texto)) == Normalizar(texto)
  {
    var n := Normalizar(texto);
    LowerOfLowerAscii(n);
    AsciiFoldOfAscii(n);
  }

  /** `detectar_uf(texto)`: the first state, in table order, one of whose terms
      occurs as a whole word in `normalizar(texto)`; None when there is none. */
  function DetectarUf(texto: string): (r: Option<string>)
    ensures r.Some? ==> exists i :: FirstHitAt(Normalizar(texto), Estados, i) && Estados[i].0 == r.value
    ensures r.None? <==> forall i :: 0 <= i < |Estados| ==> !AnyTermMatches(Normalizar(texto), Estados[i].1)
  {
    FirstMatch(Normalizar(texto), Estados)
  }

  /** "gaúcho" is dead: no normalised text holds it, so RS is found exactly
      when one of its other three terms occurs. */
  lemma GauchoIsDead(texto: string)
    ensures Estados[20] == ("RS", ["rio grande do sul", "rs", "gaucho", "gaúcho"])
    ensures AnyTermMatches(Normalizar(texto), Estados[20].1)
            <==> AnyTermMatches(Normalizar(texto), ["rio grande do sul", "rs", "gaucho"])
  {
    var n := Normalizar(texto);
    NonAsciiTermNeverOccurs(n, "gaúcho", 2);
    assert ["gaúcho"][1..] == [];
    assert ["gaucho", "gaúcho"][1..] == ["gaúcho"];
    assert ["rs", "gaucho", "gaúcho"][1..] == ["gaucho", "gaúcho"];
    assert ["rio grande do sul", "rs", "gaucho", "gaúcho"][1..] == ["rs", "gaucho", "gaúcho"];
    assert ["gaucho"][1..] == [];
    assert ["rs", "gaucho"][1..] == ["gaucho"];
    assert ["rio grande do sul", "rs", "gaucho"][1..] == ["rs", "gaucho"];
  }

  /** Over this table, a normalised text holding "mato grosso" never yields
      MS, and yields MT unless a state listed earlier matched. */
  lemma SearchWithMatoGrosso(n: string)
    requires WholeWord(n, "mato grosso")
    ensures FirstMatch(n, Estados).Some? && FirstMatch(n, Estados) != Some("MS")
    ensures (forall j :: 0 <= j < 10 ==> !AnyTermMatches(n, Estados[j].1))
            ==> FirstMatch(n, Estados) == Some("MT")
  {
    assert Estados[10] == ("MT", ["mato grosso", "mt"]);
    assert AnyTermMatches(n, Estados[10].1);
    forall j | 0 <= j <= 10 ensures Estados[j].0 != "MS" {
      assert j in {0, 1, 2, 3, 4, 5, 6, 7, 8, 9, 10};
    }
    FirstMatchBefore(n, Estados, 10, "MS");
    if forall j :: 0 <= j < 10 ==> !AnyTermMatches(n, Estados[j].1) {
      FirstMatchExactly(n, Estados, 10);
    }
  }

  /** "mato grosso do sul" never selects MS: MT, listed just before it, owns
      "mato grosso", a whole word inside it. Unless a state listed earlier
      matched, the answer is MT. */
  lemma MatoGrossoDoSulIsMT(texto: string)
    requires WholeWord(Normalizar(texto), "mato grosso do sul")
    ensures DetectarUf(texto).Some? && DetectarUf(texto) != Some("MS")
    ensures (forall j :: 0 <= j < 10 ==> !AnyTermMatches(Normalizar(texto), Estados[j].1))
            ==> DetectarUf(texto) == Some("MT")
  {
    MatoGrossoInsideMatoGrossoDoSul(Normalizar(texto));
    SearchWithMatoGrosso(Normalizar(texto));
  }
}
