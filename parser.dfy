/**
  The normalisation and lookup helpers of backend/utils/parser.py:
  `normalizar`, `extrair_nome_uf`, `extrair_cidades_uf` and
  `extrair_cidades_explicitamente`.
*/
module Parser {
  import opened Wrappers
  import opened PyText
  import opened PyDict
  import opened PyValue

  // ---------------------------------------------------------------------
  // normalizar
  // ---------------------------------------------------------------------

  /** Lower-case, decompose, drop every non-ASCII code point, then trim. */
  function Normalizar(texto: string): (r: string)
    ensures IsAsciiString(r)
    ensures NoUpperAscii(r)
  {
    AsciiFoldOfLowerHasNoUpper(texto);
    StripKeepsAsciiLower(AsciiFold(Lower(texto)));
    Strip(AsciiFold(Lower(texto)))
  }

  /** The normalised text has no whitespace at either end. */
  lemma NormalizarIsStripped(texto: string)
    ensures IsStripped(Normalizar(texto))
  {
    var folded := AsciiFold(Lower(texto));
    assert Normalizar(texto) == Strip(folded);
  }

  /** Normalising twice is normalising once. */
  lemma NormalizarIdempotent(texto: string)
    ensures Normalizar(Normalizar(texto)) == Normalizar(texto)
  {
    NormalizarIsStripped(texto);
    var n := Normalizar(texto);
    LowerOfLowerAscii(n);
    AsciiFoldOfAscii(n);
    StripOfStripped(n);
  }

  /** On ASCII text, normalising only lower-cases and trims. */
  lemma NormalizarOfAscii(texto: string)
    requires IsAsciiString(texto)
    ensures Normalizar(texto) == Strip(Lower(texto))
  {
    assert IsAsciiString(Lower(texto));
    AsciiFoldOfAscii(Lower(texto));
  }

  // ---------------------------------------------------------------------
  // extrair_nome_uf
  // ---------------------------------------------------------------------

  /** `x.get(k)` on a value that must be a dict; anything else has no `get`. */
  function GetAttr(x: Value, k: string): (r: Result<Value>)
    ensures r.Success? <==> x.VDict?
  {
    if x.VDict? then Success(GetOr(x.entries, k, VNone)) else Failure("AttributeError")
  }

  /** (`nome`, `uf`) of a city record, of the first record of a non-empty
      list, or (None, None). */
  function ExtrairNomeUf(cidadeInfo: Value): (r: Result<(Value, Value)>)
    ensures cidadeInfo.VList? && cidadeInfo.items != [] ==>
      (r.Success? <==> cidadeInfo.items[0].VDict?)
    ensures cidadeInfo.VList? && cidadeInfo.items != [] && cidadeInfo.items[0].VDict? ==>
      r.value == (GetOr(cidadeInfo.items[0].entries, "nome", VNone), GetOr(cidadeInfo.items[0].entries, "uf", VNone))
    ensures cidadeInfo.VDict? ==>
      r == Success((GetOr(cidadeInfo.entries, "nome", VNone), GetOr(cidadeInfo.entries, "uf", VNone)))
    ensures !cidadeInfo.VDict? && !(cidadeInfo.VList? && cidadeInfo.items != []) ==>
      r == Success((VNone, VNone))
  {
    if cidadeInfo.VList? && cidadeInfo.items != [] then
      var first := cidadeInfo.items[0];
      match GetAttr(first, "nome")
      case Failure(e) => Failure(e)
      case Success(nome) => Success((nome, GetAttr(first, "uf").value))
    else if cidadeInfo.VDict? then
      Success((GetOr(cidadeInfo.entries, "nome", VNone), GetOr(cidadeInfo.entries, "uf", VNone)))
    else
      Success((VNone, VNone))
  }

  // ---------------------------------------------------------------------
  // extrair_cidades_uf
  // ---------------------------------------------------------------------

  /** The element `c` has a `"nome"` key. */
  predicate HasNome(c: Value) {
    c.VDict? && HasKey(c.entries, "nome")
  }

  /** What one element adds to `[c.get("nome", "") for c in lst if "nome" in c]`.
      `"nome" in c` is a key test on a dict, a substring test on a string and
      an element test on a list; the two latter then fail on `c.get`. */
  function NomeOf(c: Value): (r: Result<seq<Value>>)
    ensures r.Success? && HasNome(c) ==> r.value == [GetOr(c.entries, "nome", VStr(""))]
    ensures r.Success? && !HasNome(c) ==> r.value == []
    ensures c.VDict? ==> r.Success?
  {
    match c
    case VDict(d) => if HasKey(d, "nome") then Success([GetOr(d, "nome", VStr(""))]) else Success([])
    case VStr(s) => if Contains(s, "nome") then Failure("AttributeError") else Success([])
    case VList(xs) => if VStr("nome") in xs then Failure("AttributeError") else Success([])
    case _ => Failure("TypeError")
  }

  /** The names comprehension of `extrair_cidades_uf`, failing as soon as an
      element fails. */
  function Nomes(cs: seq<Value>): (r: Result<seq<Value>>)
    ensures (forall i :: 0 <= i < |cs| ==> cs[i].VDict?) ==> r.Success?
    ensures r.Success? ==> |r.value| <= |cs|
  {
    if cs == [] then Success([])
    else
      match NomeOf(cs[0])
      case Failure(e) => Failure(e)
      case Success(head) =>
        match Nomes(cs[1..])
        case Failure(e) => Failure(e)
        case Success(tail) => Success(head + tail)
  }

  /** Every name collected is the `"nome"` of an element that has one. */
  lemma {:induction false} NomesDe(cs: seq<Value>)
    ensures Nomes(cs).Success? ==> forall j :: 0 <= j < |Nomes(cs).value| ==>
      exists i :: 0 <= i < |cs| && HasNome(cs[i]) && Nomes(cs).value[j] == GetOr(cs[i].entries, "nome", VStr(""))
  {
    if cs != [] && Nomes(cs).Success? {
      NomesDe(cs[1..]);
      var head := NomeOf(cs[0]).value;
      var tail := Nomes(cs[1..]).value;
      var r := Nomes(cs).value;
      assert r == head + tail;
      forall j | 0 <= j < |r|
        ensures exists i :: 0 <= i < |cs| && HasNome(cs[i]) && r[j] == GetOr(cs[i].entries, "nome", VStr(""))
      {
        if j < |head| {
          assert HasNome(cs[0]) && r[j] == GetOr(cs[0].entries, "nome", VStr(""));
        } else {
          assert r[j] == tail[j - |head|];
          var i :| 0 <= i < |cs[1..]| && HasNome(cs[1..][i]) && tail[j - |head|] == GetOr(cs[1..][i].entries, "nome", VStr(""));
          assert cs[1..][i] == cs[i + 1];
        }
      }
    }
  }

  /** Every element of `cs` has a `"nome"`, so the names are one per element, in order. */
  lemma {:induction false} NomesAllNamed(cs: seq<Value>)
    requires forall i :: 0 <= i < |cs| ==> HasNome(cs[i])
    ensures Nomes(cs).Success?
    ensures |Nomes(cs).value| == |cs|
    ensures forall i :: 0 <= i < |cs| ==> HasNome(cs[i]) && Nomes(cs).value[i] == GetOr(cs[i].entries, "nome", VStr(""))
  {
    if cs != [] {
      assert forall i :: 0 <= i < |cs[1..]| ==> cs[1..][i] == cs[i + 1];
      NomesAllNamed(cs[1..]);
      var head := [GetOr(cs[0].entries, "nome", VStr(""))];
      var tail := Nomes(cs[1..]).value;
      assert NomeOf(cs[0]) == Success(head);
      assert Nomes(cs) == Success(head + tail);
      forall i | 1 <= i < |cs| ensures Nomes(cs).value[i] == GetOr(cs[i].entries, "nome", VStr("")) {
        assert cs[1..][i - 1] == cs[i];
      }
    }
  }

  /** The position `max(range(len(keys)), key=keys.__getitem__)` picks:
      Python compares each later key with the best so far by `>`, keeps the
      best unless the later key is greater, and lets a `TypeError` of that
      comparison escape. */
  function MaxIndex(keys: seq<Value>): (r: Result<nat>)
    requires keys != []
    ensures r.Success? ==> r.value < |keys|
    ensures |keys| == 1 ==> r == Success(0)
  {
    if |keys| == 1 then Success(0)
    else
      var init := keys[..|keys| - 1];
      var last := keys[|keys| - 1];
      match MaxIndex(init)
      case Failure(e) => Failure(e)
      case Success(m) =>
        match Gt(last, init[m])
        case Failure(e) => Failure(e)
        case Success(maior) => if maior then Success(|keys| - 1) else Success(m)
  }

  /** Among numbers, `max` succeeds and picks the first key of largest value. */
  lemma {:induction false} MaxIndexNumbers(keys: seq<Value>)
    requires keys != [] && forall i :: 0 <= i < |keys| ==> IsNumber(keys[i])
    ensures MaxIndex(keys).Success?
    ensures forall i :: 0 <= i < |keys| ==> NumberOf(keys[i]) <= NumberOf(keys[MaxIndex(keys).value])
    ensures forall i :: 0 <= i < MaxIndex(keys).value ==> NumberOf(keys[i]) < NumberOf(keys[MaxIndex(keys).value])
  {
    if |keys| > 1 {
      var init := keys[..|keys| - 1];
      MaxIndexNumbers(init);
      assert forall i :: 0 <= i < |init| ==> keys[i] == init[i];
    }
  }

  /** Among strings, `max` succeeds and picks the first key that comes last
      in code-point order. */
  lemma {:induction false} MaxIndexStrings(keys: seq<Value>)
    requires keys != [] && forall i :: 0 <= i < |keys| ==> keys[i].VStr?
    ensures MaxIndex(keys).Success?
    ensures forall i :: 0 <= i < |keys| ==> !Less(keys[MaxIndex(keys).value].s, keys[i].s)
    ensures forall i :: 0 <= i < MaxIndex(keys).value ==> Less(keys[i].s, keys[MaxIndex(keys).value].s)
  {
    if |keys| == 1 {
      LessIrreflexive(keys[0].s);
    } else {
      var init := keys[..|keys| - 1];
      var last := keys[|keys| - 1];
      MaxIndexStrings(init);
      var m := MaxIndex(init).value;
      assert forall i :: 0 <= i < |init| ==> keys[i] == init[i];
      GtStrings(last, init[m]);
      if Less(init[m].s, last.s) {
        forall i | 0 <= i < |keys| ensures !Less(last.s, keys[i].s) {
          if i < |init| {
            if Less(last.s, keys[i].s) {
              LessTransitive(init[m].s, last.s, keys[i].s);
            }
          } else {
            LessIrreflexive(last.s);
          }
        }
        forall i | 0 <= i < |init| ensures Less(keys[i].s, last.s) {
          if keys[i].s != init[m].s {
            LessTotal(keys[i].s, init[m].s);
            LessTransitive(keys[i].s, init[m].s, last.s);
          }
        }
      } else {
        assert MaxIndex(keys) == Success(m);
      }
    }
  }

  /** `None` and dicts are not ordered: with two or more keys, one of them
      makes `max` raise. */
  lemma {:induction false} MaxIndexUnordered(keys: seq<Value>, k: nat)
    requires |keys| >= 2 && k < |keys| && (keys[k].VNone? || keys[k].VDict?)
    ensures MaxIndex(keys).Failure?
  {
    var init := keys[..|keys| - 1];
    if k < |init| && |init| >= 2 {
      assert init[k] == keys[k];
      MaxIndexUnordered(init, k);
    } else if k < |init| {
      assert MaxIndex(init) == Success(0);
    }
  }

  /** Numbers and strings together make `max` raise. */
  lemma {:induction false} MaxIndexMixed(keys: seq<Value>)
    requires keys != [] && forall i :: 0 <= i < |keys| ==> IsNumber(keys[i]) || keys[i].VStr?
    requires exists i :: 0 <= i < |keys| && IsNumber(keys[i])
    requires exists i :: 0 <= i < |keys| && keys[i].VStr?
    ensures MaxIndex(keys).Failure?
  {
    var init := keys[..|keys| - 1];
    var last := keys[|keys| - 1];
    assert forall i :: 0 <= i < |init| ==> keys[i] == init[i];
    if (exists i :: 0 <= i < |init| && IsNumber(init[i])) && (exists i :: 0 <= i < |init| && init[i].VStr?) {
      MaxIndexMixed(init);
    } else if forall i :: 0 <= i < |init| ==> IsNumber(init[i]) {
      MaxIndexNumbers(init);
      assert last.VStr?;
      GtMixedRaises(last, init[MaxIndex(init).value]);
    } else {
      MaxIndexStrings(init);
      assert IsNumber(last);
      GtMixedRaises(last, init[MaxIndex(init).value]);
    }
  }

  /** `c.get("populacao", 0)` for each record. */
  function Populacoes(cs: seq<Value>): (r: seq<Value>)
    requires forall i :: 0 <= i < |cs| ==> cs[i].VDict?
    ensures |r| == |cs|
    ensures forall i :: 0 <= i < |cs| ==> r[i] == GetOr(cs[i].entries, "populacao", VInt(0))
  {
    seq(|cs|, i requires 0 <= i < |cs| => GetOr(cs[i].entries, "populacao", VInt(0)))
  }

  predicate AllDicts(cs: seq<Value>) {
    forall i :: 0 <= i < |cs| ==> cs[i].VDict?
  }

  /** (names, uf): the names of one record or of a list of records, and the
      state of the record, or of the most populous record of the list. */
  function ExtrairCidadesUf(cidadeInfo: Value): (r: Result<(seq<Value>, Value)>)
    ensures cidadeInfo.VDict? ==>
      r == Success(([GetOr(cidadeInfo.entries, "nome", VStr(""))], GetOr(cidadeInfo.entries, "uf", VNone)))
    ensures !cidadeInfo.VDict? && !(cidadeInfo.VList? && cidadeInfo.items != []) ==> r == Success(([], VNone))
    ensures cidadeInfo.VList? && cidadeInfo.items != [] && r.Success? ==>
      Nomes(cidadeInfo.items).Success? && r.value.0 == Nomes(cidadeInfo.items).value
    ensures cidadeInfo.VList? && cidadeInfo.items != [] && !AllDicts(cidadeInfo.items) && r.Success? ==>
      r.value.1 == VNone
    ensures cidadeInfo.VList? && cidadeInfo.items != [] && AllDicts(cidadeInfo.items) ==>
      var ps := Populacoes(cidadeInfo.items);
      (r.Success? <==> Nomes(cidadeInfo.items).Success? && MaxIndex(ps).Success?)
      && (r.Success? ==> r.value.1 == GetOr(cidadeInfo.items[MaxIndex(ps).value].entries, "uf", VNone))
  {
    if cidadeInfo.VDict? then
      var d := cidadeInfo.entries;
      Success(([GetOr(d, "nome", VStr(""))], GetOr(d, "uf", VNone)))
    else if cidadeInfo.VList? && cidadeInfo.items != [] then
      var cs := cidadeInfo.items;
      match Nomes(cs)
      case Failure(e) => Failure(e)
      case Success(nomes) =>
        if AllDicts(cs) then
          match MaxIndex(Populacoes(cs))
          case Failure(e) => Failure(e)
          case Success(m) => Success((nomes, GetOr(cs[m].entries, "uf", VNone)))
        else
          Success((nomes, VNone))
    else
      Success(([], VNone))
  }

  /** The two extractors agree on a single record, alone or as a one-element list. */
  lemma ExtractorsAgree(rec: Dict<string, Value>)
    requires HasKey(rec, "nome")
    ensures ExtrairNomeUf(VDict(rec)).value.1 == ExtrairCidadesUf(VDict(rec)).value.1
    ensures ExtrairNomeUf(VList([VDict(rec)])).value == ExtrairNomeUf(VDict(rec)).value
    ensures ExtrairCidadesUf(VList([VDict(rec)])) == ExtrairCidadesUf(VDict(rec))
    ensures ExtrairCidadesUf(VDict(rec)).value.0 == [ExtrairNomeUf(VDict(rec)).value.0]
  {
    var cs := [VDict(rec)];
    NomesAllNamed(cs);
    assert HasNome(cs[0]);
    assert Nomes(cs).value[0] == GetOr(rec, "nome", VStr(""));
    assert Nomes(cs).value == [GetOr(rec, "nome", VStr(""))];
    assert AllDicts(cs);
    assert MaxIndex(Populacoes(cs)) == Success(0);
  }

  /** With numeric populations, the state is the one of the first record of
      largest population. */
  lemma ExtrairCidadesUfMaisPopulosa(cs: seq<Value>)
    requires cs != [] && AllDicts(cs)
    requires forall i :: 0 <= i < |cs| ==> IsNumber(Populacoes(cs)[i])
    ensures ExtrairCidadesUf(VList(cs)).Success?
    ensures exists m :: 0 <= m < |cs|
              && ExtrairCidadesUf(VList(cs)).value.1 == GetOr(cs[m].entries, "uf", VNone)
              && (forall i :: 0 <= i < |cs| ==> NumberOf(Populacoes(cs)[i]) <= NumberOf(Populacoes(cs)[m]))
              && (forall i :: 0 <= i < m ==> NumberOf(Populacoes(cs)[i]) < NumberOf(Populacoes(cs)[m]))
  {
    MaxIndexNumbers(Populacoes(cs));
    var m := MaxIndex(Populacoes(cs)).value;
    assert ExtrairCidadesUf(VList(cs)).value.1 == GetOr(cs[m].entries, "uf", VNone);
  }

  /** With populations given as text, Python orders them as strings, so
      "20" beats "10" and the second record gives the state. */
  lemma ExtrairCidadesUfTextPopulations(a: Dict<string, Value>, b: Dict<string, Value>)
    requires a == [("nome", VStr("A")), ("uf", VStr("SP")), ("populacao", VStr("10"))]
    requires b == [("nome", VStr("B")), ("uf", VStr("RJ")), ("populacao", VStr("20"))]
    ensures ExtrairCidadesUf(VList([VDict(a), VDict(b)])) == Success(([VStr("A"), VStr("B")], VStr("RJ")))
  {
    var cs := [VDict(a), VDict(b)];
    assert a[0].0 == "nome" && b[0].0 == "nome";
    NomesAllNamed(cs);
    assert HasNome(cs[0]) && HasNome(cs[1]);
    assert Nomes(cs).value == [VStr("A"), VStr("B")];
    assert "nome" != "populacao" && "uf" != "populacao" && "nome" != "uf";
    assert a[2].0 == "populacao" && b[2].0 == "populacao";
    assert IndexOf(a, "populacao") == 2 && IndexOf(b, "populacao") == 2;
    assert IndexOf(b, "uf") == 1;
    var ps := Populacoes(cs);
    assert ps == [VStr("10"), VStr("20")];
    assert Less("10", "20");
    assert MaxIndex(ps) == Success(1);
  }

  // ---------------------------------------------------------------------
  // extrair_cidades_explicitamente
  // ---------------------------------------------------------------------

  /** The fuzzy threshold of the explicit scan. */
  const ExplicitFuzzyThreshold := 90

  /** A city name hits the normalised text: its normalised form occurs there
      as a whole word, or `partialRatio(name, text)` reaches the threshold.
      `partialRatio` stands for rapidfuzz's `fuzz.partial_ratio`. */
  predicate Hit(textoNorm: string, nome: string, partialRatio: (string, string) -> int) {
    var nomeNorm := Normalizar(nome);
    WholeWord(textoNorm, nomeNorm) || partialRatio(nomeNorm, textoNorm) >= ExplicitFuzzyThreshold
  }

  /** The hit test of one scan, as a function of the city name. */
  function HitTest(textoNorm: string, partialRatio: (string, string) -> int): string -> bool {
    nome => Hit(textoNorm, nome, partialRatio)
  }

  /** The scan over the remaining index entries, with `found` so far: what the
      loop body does to the entry in front, then the rest unless the cap is reached. */
  function Scan<R(==)>(entries: Dict<string, R>, maxCidades: int, isHit: string -> bool, found: seq<R>): seq<R>
    decreases |entries|
  {
    if entries == [] then found
    else
      var found' := if isHit(entries[0].0) && entries[0].1 !in found then found + [entries[0].1] else found;
      if |found'| >= maxCidades then found'
      else Scan(entries[1..], maxCidades, isHit, found')
  }

  /** Scan the index in order for names mentioned in `texto`, keeping each
      record once and stopping once `maxCidades` records are found. */
  method ExtrairCidadesExplicitamente<R(==)>(texto: string, cidadesIndex: Dict<string, R>,
                                              maxCidades: int, partialRatio: (string, string) -> int)
    returns (encontradas: seq<R>)
    ensures encontradas == Scan(cidadesIndex, maxCidades, HitTest(Normalizar(texto), partialRatio), [])
  {
    var textoNorm := Normalizar(texto);
    ghost var isHit := HitTest(textoNorm, partialRatio);
    encontradas := [];
    var i := 0;
    while i < |cidadesIndex|
      invariant 0 <= i <= |cidadesIndex|
      invariant Scan(cidadesIndex[i..], maxCidades, isHit, encontradas) == Scan(cidadesIndex, maxCidades, isHit, [])
      decreases |cidadesIndex| - i
    {
      var (nome, dados) := cidadesIndex[i];
      assert cidadesIndex[i..][1..] == cidadesIndex[i + 1..];
      var nomeNorm := Normalizar(nome);
      if WholeWord(textoNorm, nomeNorm) || partialRatio(nomeNorm, textoNorm) >= ExplicitFuzzyThreshold {
        if dados !in encontradas {
          encontradas := encontradas + [dados];
        }
      }
      if |encontradas| >= maxCidades {
        break;
      }
      i := i + 1;
    }
  }

  // Reference definition: the hits in index order, without repeats, capped.

  /** The records whose names hit, in index order. */
  function Hits<R>(entries: Dict<string, R>, isHit: string -> bool): (r: seq<R>)
    ensures forall x :: x in r ==> exists i :: 0 <= i < |entries| && entries[i].1 == x && isHit(entries[i].0)
  {
    if entries == [] then []
    else
      var rest := Hits(entries[1..], isHit);
      assert forall x :: x in rest ==> exists i :: 0 <= i < |entries| && entries[i].1 == x && isHit(entries[i].0) by {
        forall x | x in rest
          ensures exists i :: 0 <= i < |entries| && entries[i].1 == x && isHit(entries[i].0)
        {
          var i :| 0 <= i < |entries| - 1 && entries[1..][i].1 == x && isHit(entries[1..][i].0);
          assert entries[i + 1].1 == x;
        }
      }
      if isHit(entries[0].0) then [entries[0].1] + rest else rest
  }

  /** `xs` without the elements of `seen` and without repeats, first occurrences kept. */
  function DedupFrom<R(==)>(xs: seq<R>, seen: seq<R>): (r: seq<R>)
    ensures forall x :: x in r ==> x in xs && x !in seen
    ensures NoDup(r)
  {
    if xs == [] then []
    else if xs[0] in seen then DedupFrom(xs[1..], seen)
    else
      var rest := DedupFrom(xs[1..], seen + [xs[0]]);
      assert forall j :: 0 <= j < |rest| ==> ([xs[0]] + rest)[j + 1] == rest[j];
      assert xs[0] !in rest;
      [xs[0]] + rest
  }

  predicate NoDup<R(==)>(xs: seq<R>) {
    forall i, j :: 0 <= i < j < |xs| ==> xs[i] != xs[j]
  }

  function Take<R>(xs: seq<R>, n: int): (r: seq<R>)
    ensures |r| == if n <= 0 then 0 else if n < |xs| then n else |xs|
    ensures r == xs[..|r|]
    ensures forall x :: x in r ==> x in xs
    ensures NoDup(xs) ==> NoDup(r)
  {
    if n <= 0 then [] else if n < |xs| then xs[..n] else xs
  }

  /** The scan, while under the cap, is the reference definition. */
  lemma {:induction false} ScanIsReference<R>(entries: Dict<string, R>, maxCidades: int,
                                              isHit: string -> bool, found: seq<R>)
    requires |found| < maxCidades
    ensures Scan(entries, maxCidades, isHit, found)
         == Take(found + DedupFrom(Hits(entries, isHit), found), maxCidades)
  {
    if entries != [] {
      var x := entries[0].1;
      var rest := Hits(entries[1..], isHit);
      if isHit(entries[0].0) && x !in found {
        var found' := found + [x];
        assert Hits(entries, isHit) == [x] + rest;
        assert DedupFrom([x] + rest, found) == [x] + DedupFrom(rest, found');
        assert found + DedupFrom([x] + rest, found) == found' + DedupFrom(rest, found');
        if |found'| < maxCidades {
          ScanIsReference(entries[1..], maxCidades, isHit, found');
        }
      } else if isHit(entries[0].0) {
        assert Hits(entries, isHit) == [x] + rest;
        assert DedupFrom([x] + rest, found) == DedupFrom(rest, found);
        ScanIsReference(entries[1..], maxCidades, isHit, found);
      } else {
        ScanIsReference(entries[1..], maxCidades, isHit, found);
      }
    }
  }

  /** With a positive cap: at most `maxCidades` records, none twice, every one
      a hit of the index, and all of them exactly the first distinct hits in
      index order. */
  lemma ScanWithCap<R>(cidadesIndex: Dict<string, R>, maxCidades: int, isHit: string -> bool)
    requires maxCidades >= 1
    ensures var r := Scan(cidadesIndex, maxCidades, isHit, []);
      && r == Take(DedupFrom(Hits(cidadesIndex, isHit), []), maxCidades)
      && |r| <= maxCidades
      && NoDup(r)
      && forall x :: x in r ==> exists i :: 0 <= i < |cidadesIndex| && cidadesIndex[i].1 == x && isHit(cidadesIndex[i].0)
  {
    var d := DedupFrom(Hits(cidadesIndex, isHit), []);
    ScanIsReference(cidadesIndex, maxCidades, isHit, []);
    assert [] + d == d;
  }

  /** With a cap of zero or less the cap is checked after the first entry:
      the result is that entry's record if it hits, and nothing otherwise. */
  lemma ScanWithoutCap<R>(cidadesIndex: Dict<string, R>, maxCidades: int, isHit: string -> bool)
    requires maxCidades <= 0 && cidadesIndex != []
    ensures Scan(cidadesIndex, maxCidades, isHit, [])
         == if isHit(cidadesIndex[0].0) then [cidadesIndex[0].1] else []
  {
  }
}
