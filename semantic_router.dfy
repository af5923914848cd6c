/**
  backend/core/router/semantic_router.py: the topic classifier. A blank
  question goes to the general model ("llm"); a question the comparative
  heuristic recognises goes to the dashboard; every other question is put to
  the language model, whose answer is cleaned of code fences, read as JSON or,
  failing that, searched with a regular expression, and accepted only when
  the topic is one of the valid topics.

  The language model (`llm.invoke`) and `json.loads` are parameters; the list
  of valid topics comes from a module that is not part of this model, so it is
  a parameter as well.
*/
module SemanticRouter {
  import opened Wrappers
  import opened PyText
  import opened PyDict
  import opened PyValue

  // ---------------------------------------------------------------------
  // limpar_marcacoes
  // ---------------------------------------------------------------------

  /** `texto.replace("```json", "").replace("```", "").strip()` */
  function LimparMarcacoes(texto: string): (r: string)
    ensures IsStripped(r)
    ensures !Contains(r, "```")
  {
    var semFences := ReplaceAll(ReplaceAll(texto, "```json", ""), "```", "");
    FenceRemovalLeavesNoFence(ReplaceAll(texto, "```json", ""));
    StripKeepsAbsent(semFences, "```");
    Strip(semFences)
  }

  /** Removing every "```" leaves none: a run of backticks loses a multiple of
      three and keeps fewer than three, and runs never merge. The two
      `StartsWith` facts carry the induction. */
  lemma {:induction false} FenceRemovalLeavesNoFence(t: string)
    ensures !Contains(ReplaceAll(t, "```", ""), "```")
    ensures StartsWith(ReplaceAll(t, "```", ""), "`") ==> StartsWith(t, "`")
    ensures StartsWith(ReplaceAll(t, "```", ""), "``") ==> StartsWith(t, "``")
    decreases |t|
  {
    var r := ReplaceAll(t, "```", "");
    if |t| < 3 {
      assert r == t;
    } else if t[..3] == "```" {
      FenceRemovalLeavesNoFence(t[3..]);
      assert r == ReplaceAll(t[3..], "```", "");
    } else {
      var rest := ReplaceAll(t[1..], "```", "");
      FenceRemovalLeavesNoFence(t[1..]);
      assert r == [t[0]] + rest;
      assert r[1..] == rest;
      if Contains(r, "```") {
        var i :| 0 <= i <= |r| - 3 && OccursAt(r, "```", i);
        if i == 0 {
          assert false;
        } else {
          assert rest[i - 1..i - 1 + 3] == r[i..i + 3];
          assert OccursAt(rest, "```", i - 1);
          assert false;
        }
      }
      if StartsWith(r, "``") {
        assert rest[..1] == r[1..2] == "`";
        assert StartsWith(t[1..], "`");
        assert t[..2] == [t[0]] + t[1..][..1];
      }
    }
  }

  /** Cleaning twice is cleaning once. */
  lemma LimparMarcacoesIdempotent(texto: string)
    ensures LimparMarcacoes(LimparMarcacoes(texto)) == LimparMarcacoes(texto)
  {
    var c := LimparMarcacoes(texto);
    assert !Contains(c, "```json") by {
      if Contains(c, "```json") {
        ContainsOfPrefix(c, "```json", "```");
      }
    }
    ReplaceAllAbsent(c, "```json", "");
    ReplaceAllAbsent(c, "```", "");
    StripOfStripped(c);
  }

  /** Text without fences is only stripped. */
  lemma LimparMarcacoesOfPlain(texto: string)
    requires !Contains(texto, "```")
    ensures LimparMarcacoes(texto) == Strip(texto)
  {
    assert !Contains(texto, "```json") by {
      if Contains(texto, "```json") {
        ContainsOfPrefix(texto, "```json", "```");
      }
    }
    ReplaceAllAbsent(texto, "```json", "");
    ReplaceAllAbsent(texto, "```", "");
  }

  // ---------------------------------------------------------------------
  // heuristica_comparativa
  // ---------------------------------------------------------------------

  /** The shapes of the twelve comparative patterns. */
  datatype Padrao =
      /** `\bterm\b` */
    | Palavra(termo: string)
      /** `" [xX] "` */
    | XEntreEspacos
      /** `\b(em|de|entre)\s+\w+\s+e\s+\w+` */
    | EmDeEntre

  const Comparacoes: seq<Padrao> := [
    Palavra("compare"), Palavra("comparar"), Palavra("versus"), Palavra("vs"), Palavra("contra"),
    XEntreEspacos, Palavra("melhor cidade"), Palavra("mais desenvolvida"),
    Palavra("menor desigualdade"), Palavra("maior investimento"), Palavra("diferenças entre"),
    EmDeEntre
  ]

  /** `" [xX] "` matches at `i`. */
  predicate XEntreEspacosAt(s: string, i: int) {
    0 <= i && i + 3 <= |s| && s[i] == ' ' && (s[i + 1] == 'x' || s[i + 1] == 'X') && s[i + 2] == ' '
  }

  /** `\s+\w+\s+e\s+\w+` matches from `j`. Every quantifier is forced to take
      a whole run (a word run must end at whitespace, a whitespace run at a
      word character or "e"), so the match is decided by skipping runs. */
  predicate EnumeracaoDesde(s: string, j: nat)
    requires j <= |s|
  {
    j < |s| && IsSpace(s[j]) &&
    var a := SkipSpaces(s, j);
    a < |s| && IsWordChar(s[a]) &&
    var b := SkipWord(s, a);
    b < |s| && IsSpace(s[b]) &&
    var c := SkipSpaces(s, b);
    c + 1 < |s| && s[c] == 'e' && IsSpace(s[c + 1]) &&
    var d := SkipSpaces(s, c + 1);
    d < |s| && IsWordChar(s[d])
  }

  /** `\b(em|de|entre)\s+\w+\s+e\s+\w+` matches at `i`. */
  predicate EmDeEntreAt(s: string, i: int) {
    0 <= i <= |s| && Boundary(s, i) &&
    ((OccursAt(s, "em", i) && EnumeracaoDesde(s, i + 2))
     || (OccursAt(s, "de", i) && EnumeracaoDesde(s, i + 2))
     || (OccursAt(s, "entre", i) && EnumeracaoDesde(s, i + 5)))
  }

  /** `re.search(p, s) is not None` */
  predicate Casa(p: Padrao, s: string) {
    match p
    case Palavra(termo) => WholeWord(s, termo)
    case XEntreEspacos => exists i :: 0 <= i <= |s| - 3 && XEntreEspacosAt(s, i)
    case EmDeEntre => exists i :: 0 <= i <= |s| && EmDeEntreAt(s, i)
  }

  /** `any(re.search(p, s) for p in padroes)` */
  predicate AlgumCasa(padroes: seq<Padrao>, s: string)
    decreases |padroes|
  {
    padroes != [] && (Casa(padroes[0], s) || AlgumCasa(padroes[1..], s))
  }

  lemma {:induction false} AlgumCasaIff(padroes: seq<Padrao>, s: string)
    ensures AlgumCasa(padroes, s) <==> exists i :: 0 <= i < |padroes| && Casa(padroes[i], s)
    decreases |padroes|
  {
    if padroes != [] {
      AlgumCasaIff(padroes[1..], s);
      if exists i :: 0 <= i < |padroes| && Casa(padroes[i], s) {
        var i :| 0 <= i < |padroes| && Casa(padroes[i], s);
        if i > 0 {
          assert padroes[1..][i - 1] == padroes[i];
        }
      }
      if exists i :: 0 <= i < |padroes[1..]| && Casa(padroes[1..][i], s) {
        var i :| 0 <= i < |padroes[1..]| && Casa(padroes[1..][i], s);
        assert padroes[i + 1] == padroes[1..][i];
      }
    }
  }

  /** `heuristica_comparativa(pergunta)` */
  predicate HeuristicaComparativa(pergunta: string) {
    AlgumCasa(Comparacoes, Lower(pergunta))
  }

  /** The heuristic holds exactly when one of the twelve patterns matches the
      lower-cased question. */
  lemma HeuristicaComparativaIff(pergunta: string)
    ensures |Comparacoes| == 12
    ensures HeuristicaComparativa(pergunta) <==>
      exists i :: 0 <= i < |Comparacoes| && Casa(Comparacoes[i], Lower(pergunta))
  {
    AlgumCasaIff(Comparacoes, Lower(pergunta));
  }

  /** The heuristic ignores case. */
  lemma HeuristicaIgnoresCase(pergunta: string)
    ensures HeuristicaComparativa(Lower(pergunta)) == HeuristicaComparativa(pergunta)
  {
    LowerIdempotent(pergunta);
  }

  /** "de X e Y" is comparative: "de a e b" matches the enumeration
      pattern at "de". */
  lemma EnumeracaoExample()
    ensures Casa(EmDeEntre, "de a e b")
  {
    var s := "de a e b";
    assert SkipSpaces(s, 2) == 3;
    assert SkipWord(s, 3) == 4;
    assert SkipSpaces(s, 4) == 5;
    assert SkipSpaces(s, 6) == 7;
    assert EmDeEntreAt(s, 0);
  }

  // ---------------------------------------------------------------------
  // classificar_tema
  // ---------------------------------------------------------------------

  /** The topic `re.search(r'"?tema"?\s*:\s*"?(?P<tema>\w+)"?', s)` captures
      when its "tema" is the one at `i`. Each optional quote and each `\s*` is
      forced (a quote cannot be skipped, since what follows it must not be a
      quote), so the capture is the whole word run after the colon. There is
      no `\b`: "sistema: x" matches too. */
  function TemaAt(s: string, i: nat): (r: Option<string>)
    ensures r.Some? ==> r.value != [] && forall c :: c in r.value ==> IsWordChar(c)
  {
    if !OccursAt(s, "tema", i) then None
    else
      var j := i + 4;
      var j' := if j < |s| && s[j] == '"' then j + 1 else j;
      var k := SkipSpaces(s, j');
      if !(k < |s| && s[k] == ':') then None
      else
        var k' := SkipSpaces(s, k + 1);
        var m := if k' < |s| && s[k'] == '"' then k' + 1 else k';
        if !(m < |s| && IsWordChar(s[m])) then None
        else Some(s[m..SkipWord(s, m)])
  }

  /** `re.search` scans from the left: the first "tema" from `i` on with a match. */
  function TemaPorRegexDesde(s: string, i: nat): Option<string>
    decreases |s| - i
  {
    if i > |s| then None
    else if TemaAt(s, i).Some? then TemaAt(s, i)
    else TemaPorRegexDesde(s, i + 1)
  }

  /** No position in `[i, j)` matches. */
  predicate SemTemaEntre(s: string, i: nat, j: nat) {
    forall k :: i <= k < j ==> TemaAt(s, k).None?
  }

  lemma SemTemaPasso(s: string, i: nat, j: nat)
    requires i < j
    ensures SemTemaEntre(s, i, j) <==> TemaAt(s, i).None? && SemTemaEntre(s, i + 1, j)
  {
  }

  /** The search finds nothing exactly when no position matches, and
      otherwise what the first matching position yields. */
  lemma {:induction false} TemaPorRegexDesdeDe(s: string, i: nat)
    ensures TemaPorRegexDesde(s, i).None? <==> SemTemaEntre(s, i, |s| + 1)
    ensures TemaPorRegexDesde(s, i).Some? ==>
              exists j :: i <= j <= |s| && TemaAt(s, j) == TemaPorRegexDesde(s, i) && SemTemaEntre(s, i, j)
    decreases |s| - i
  {
    if i <= |s| {
      SemTemaPasso(s, i, |s| + 1);
      if TemaAt(s, i).None? {
        TemaPorRegexDesdeDe(s, i + 1);
        if TemaPorRegexDesde(s, i).Some? {
          var j :| i + 1 <= j <= |s| && TemaAt(s, j) == TemaPorRegexDesde(s, i + 1) && SemTemaEntre(s, i + 1, j);
          SemTemaPasso(s, i, j);
        }
      } else {
        assert SemTemaEntre(s, i, i);
      }
    }
  }

  function TemaPorRegex(s: string): Option<string> {
    TemaPorRegexDesde(s, 0)
  }

  /** `parsed.get("tema", "").lower()`; None where it raises (a value that
      is not a dict, or a topic that is not a string). */
  function TemaDoJson(parsed: Value): Option<string> {
    match parsed
    case VDict(d) =>
      var v := Get(d, "tema");
      if v.None? then Some("")
      else if v.value.VStr? then Some(Lower(v.value.s))
      else None
    case _ => None
  }

  /** Reading the cleaned answer: JSON first, the regular expression only when
      JSON decoding fails; the topic is accepted only when valid. */
  function TemaDaResposta(content: string, temasValidos: seq<string>,
                          jsonLoads: string -> Option<Value>): (r: string)
    ensures r == "llm" || r in temasValidos
  {
    match jsonLoads(content)
    case None =>
      var m := TemaPorRegex(content);
      if m.Some? && Lower(m.value) in temasValidos then Lower(m.value) else "llm"
    case Some(parsed) =>
      var t := TemaDoJson(parsed);
      if t.Some? && t.value in temasValidos then t.value else "llm"
  }

  /** The oracles: the language model on the question (its answer's text, or
      an exception) and `json.loads` (None for a decode error). */
  datatype OraculosTema = OraculosTema(llm: string -> Result<string>,
                                       jsonLoads: string -> Option<Value>)

  /** `classificar_tema(pergunta)` */
  function ClassificarTema(pergunta: string, temasValidos: seq<string>, o: OraculosTema): (r: string)
    ensures r == "llm" || r == "dashboard" || r in temasValidos
    ensures IsBlank(pergunta) ==> r == "llm"
    ensures !IsBlank(pergunta) && HeuristicaComparativa(pergunta) ==> r == "dashboard"
  {
    if IsBlank(pergunta) then "llm"
    else if HeuristicaComparativa(pergunta) then "dashboard"
    else
      match o.llm(pergunta)
      case Failure(_) => "llm"
      case Success(resposta) => TemaDaResposta(LimparMarcacoes(Strip(resposta)), temasValidos, o.jsonLoads)
  }

  /** A blank or comparative question never reaches the language model: the
      answer is the same whatever the oracles do. */
  lemma ClassificarTemaSemLlm(pergunta: string, temasValidos: seq<string>, o1: OraculosTema, o2: OraculosTema)
    requires IsBlank(pergunta) || HeuristicaComparativa(pergunta)
    ensures ClassificarTema(pergunta, temasValidos, o1) == ClassificarTema(pergunta, temasValidos, o2)
  {
  }

  /** The first position with a match decides. */
  lemma {:induction false} PrimeiroTema(s: string, i: nat, j: nat)
    requires i <= j <= |s|
    requires forall j' :: i <= j' < j ==> TemaAt(s, j').None?
    requires TemaAt(s, j).Some?
    ensures TemaPorRegexDesde(s, i) == TemaAt(s, j)
    decreases j - i
  {
    if i < j {
      PrimeiroTema(s, i + 1, j);
    }
  }

  lemma TemaAtSus(s: string)
    requires s == "\"tema\": \"Sus\""
    ensures TemaAt(s, 0).None? && TemaAt(s, 1) == Some("Sus")
  {
    assert s[0] != 't';
    assert OccursAt(s, "tema", 1);
    assert s[5] == '"' && s[6] == ':' && s[7] == ' ' && s[8] == '"';
    assert s[9] == 'S' && s[10] == 'u' && s[11] == 's' && s[12] == '"';
    assert SkipSpaces(s, 6) == 6;
    assert SkipSpaces(s, 8) == 8;
    assert SkipSpaces(s, 7) == 8;
    assert SkipWord(s, 12) == 12;
    assert SkipWord(s, 11) == 12;
    assert SkipWord(s, 10) == 12;
    assert SkipWord(s, 9) == 12;
    assert s[9..12] == "Sus";
  }

  /** The regular expression finds `"tema": "Sus"`, quotes and all. */
  lemma RegexExample(s: string)
    requires s == "\"tema\": \"Sus\""
    ensures TemaPorRegex(s) == Some("Sus")
  {
    TemaAtSus(s);
    PrimeiroTema(s, 0, 1);
  }

  lemma TemaAtSistema(s: string)
    requires s == "sistema:x"
    ensures forall j :: 0 <= j < 3 ==> TemaAt(s, j).None?
    ensures TemaAt(s, 3) == Some("x")
  {
    assert s[0] != 't' && s[1] != 't' && s[2] != 't';
    assert OccursAt(s, "tema", 3);
    assert s[7] == ':' && s[8] == 'x';
    assert SkipSpaces(s, 7) == 7;
    assert SkipSpaces(s, 8) == 8;
    assert SkipWord(s, 9) == 9;
    assert SkipWord(s, 8) == 9;
    assert s[8..9] == "x";
  }

  /** Without `\b`, "tema" inside another word is found: "sistema:x"
      yields "x". */
  lemma RegexInsideWord(s: string)
    requires s == "sistema:x"
    ensures TemaPorRegex(s) == Some("x")
  {
    TemaAtSistema(s);
    PrimeiroTema(s, 0, 3);
  }
}
