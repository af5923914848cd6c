/**
  backend/utils/geo.py: `detectar_uf`, the state named in a question, searched
  over the ESTADOS table of backend/config/dicionarios.py in the normalised text.
*/
module Geo {
  import opened Wrappers
  import opened PyText
  import opened PyDict
  import opened Parser
  import opened Dicionarios
  import opened StateSearch

  /** `detectar_uf(texto)`: the first state, in ESTADOS order, one of whose
      terms occurs as a whole word in `normalizar(texto)`; None when there is none. */
  function DetectarUf(texto: string): (r: Option<string>)
    ensures r.Some? ==> exists i :: FirstHitAt(Normalizar(texto), Estados, i) && Estados[i].0 == r.value
    ensures r.None? <==> forall i :: 0 <= i < |Estados| ==> !AnyTermMatches(Normalizar(texto), Estados[i].1)
  {
    FirstMatch(Normalizar(texto), Estados)
  }

  /** Case and accents do not matter: the question and its normalised form
      name the same state. */
  lemma DetectarUfIgnoresCaseAndAccents(texto: string)
    ensures DetectarUf(Normalizar(texto)) == DetectarUf(texto)
  {
    NormalizarIdempotent(texto);
  }

  /** "gaúcho" is dead: no normalised text holds it, so only "gaucho" can
      select RS. */
  lemma GauchoNeverMatches(texto: string)
    ensures !WholeWord(Normalizar(texto), "gaúcho")
  {
    NonAsciiTermNeverOccurs(Normalizar(texto), "gaúcho", 2);
  }

  /** In ESTADOS, MT comes just before MS, and no code up to MT is "MS". */
  lemma MatoGrossoBeforeMatoGrossoDoSul()
    ensures |Estados| > 11
    ensures Estados[10] == ("MT", ["mato grosso", "mt"])
    ensures Estados[11] == ("MS", ["mato grosso do sul", "ms"])
    ensures forall j :: 0 <= j <= 10 ==> Estados[j].0 != "MS"
  {
    forall j | 0 <= j <= 10 ensures Estados[j].0 != "MS" {
      assert j in {0, 1, 2, 3, 4, 5, 6, 7, 8, 9, 10};
    }
  }

  /** The search over ESTADOS in a normalised text holding "mato grosso":
      never MS, and MT unless an earlier state matched. */
  lemma MatoGrossoSearch(n: string)
    requires WholeWord(n, "mato grosso")
    ensures FirstMatch(n, Estados).Some? && FirstMatch(n, Estados) != Some("MS")
    ensures (forall j :: 0 <= j < 10 ==> !AnyTermMatches(n, Estados[j].1))
            ==> FirstMatch(n, Estados) == Some("MT")
  {
    MatoGrossoBeforeMatoGrossoDoSul();
    assert AnyTermMatches(n, Estados[10].1);
    FirstMatchBefore(n, Estados, 10, "MS");
    if forall j :: 0 <= j < 10 ==> !AnyTermMatches(n, Estados[j].1) {
      FirstMatchExactly(n, Estados, 10);
    }
  }

  /** "mato grosso do sul" never selects MS: MT, listed just before it, owns
      the term "mato grosso", which matches as a whole word inside it. Unless
      a state listed earlier still matches, the answer is MT. */
  lemma MatoGrossoDoSulIsMT(texto: string)
    requires WholeWord(Normalizar(texto), "mato grosso do sul")
    ensures DetectarUf(texto).Some? && DetectarUf(texto) != Some("MS")
    ensures (forall j :: 0 <= j < 10 ==> !AnyTermMatches(Normalizar(texto), Estados[j].1))
            ==> DetectarUf(texto) == Some("MT")
  {
    MatoGrossoInsideMatoGrossoDoSul(Normalizar(texto));
    MatoGrossoSearch(Normalizar(texto));
  }

  /** The search over ESTADOS in a normalised text holding the word "para". */
  lemma ParaSearch(n: string)
    requires WholeWord(n, "para")
    ensures FirstMatch(n, Estados).Some?
    ensures (forall j :: 0 <= j < 13 ==> !AnyTermMatches(n, Estados[j].1))
            ==> FirstMatch(n, Estados) == Some("PA")
  {
    assert Estados[13] == ("PA", ["para", "pa"]);
    assert AnyTermMatches(n, Estados[13].1);
    FirstMatchAtMost(n, Estados, 13);
    if forall j :: 0 <= j < 13 ==> !AnyTermMatches(n, Estados[j].1) {
      FirstMatchExactly(n, Estados, 13);
    }
  }

  /** The word "para" (Portuguese "for") selects some state, and PA unless a
      state listed earlier matched. */
  lemma ParaIsPA(texto: string)
    requires WholeWord(Normalizar(texto), "para")
    ensures DetectarUf(texto).Some?
    ensures (forall j :: 0 <= j < 13 ==> !AnyTermMatches(Normalizar(texto), Estados[j].1))
            ==> DetectarUf(texto) == Some("PA")
  {
    ParaSearch(Normalizar(texto));
  }
}
