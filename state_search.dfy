/**
  The state search that backend/utils/geo.py and
  backend/core/router/uf_matcher.py both perform: for each state code of an
  ordered table, for each of its terms, a whole-word regular-expression search
  in the normalised text; the first state with a hit is the answer.
*/
module StateSearch {
  import opened Wrappers
  import opened PyText
  import opened PyDict

  /** Some term of `termos` occurs in `texto` as a whole word (the inner loop). */
  predicate AnyTermMatches(texto: string, termos: seq<string>)
    decreases |termos|
  {
    termos != [] && (WholeWord(texto, termos[0]) || AnyTermMatches(texto, termos[1..]))
  }

  lemma {:induction false} AnyTermMatchesIff(texto: string, termos: seq<string>)
    ensures AnyTermMatches(texto, termos) <==> exists t :: t in termos && WholeWord(texto, t)
    decreases |termos|
  {
    if termos != [] {
      AnyTermMatchesIff(texto, termos[1..]);
      assert forall t :: t in termos <==> t == termos[0] || t in termos[1..];
    }
  }

  /** The state at `i` is the first one, in table order, with a hit. */
  predicate FirstHitAt(texto: string, estados: Dict<string, seq<string>>, i: int) {
    0 <= i < |estados| && AnyTermMatches(texto, estados[i].1)
    && forall j :: 0 <= j < i ==> !AnyTermMatches(texto, estados[j].1)
  }

  /** The outer loop, with its early return. */
  function FirstMatch(texto: string, estados: Dict<string, seq<string>>): (r: Option<string>)
    ensures r.None? <==> forall i :: 0 <= i < |estados| ==> !AnyTermMatches(texto, estados[i].1)
    ensures r.Some? ==> exists i :: FirstHitAt(texto, estados, i) && estados[i].0 == r.value
    decreases |estados|
  {
    if estados == [] then None
    else if AnyTermMatches(texto, estados[0].1) then Some(estados[0].0)
    else
      var r := FirstMatch(texto, estados[1..]);
      assert forall i :: 1 <= i < |estados| ==> estados[i] == estados[1..][i - 1];
      if r.Some? then
        var i :| FirstHitAt(texto, estados[1..], i) && estados[1..][i].0 == r.value;
        assert FirstHitAt(texto, estados, i + 1);
        r
      else r
  }

  /** A hit at position `k` of the table bounds the answer: it is the code of
      some state at or before `k`. */
  lemma FirstMatchAtMost(texto: string, estados: Dict<string, seq<string>>, k: int)
    requires 0 <= k < |estados| && AnyTermMatches(texto, estados[k].1)
    ensures FirstMatch(texto, estados).Some?
    ensures exists i :: 0 <= i <= k && FirstHitAt(texto, estados, i)
                        && FirstMatch(texto, estados) == Some(estados[i].0)
  {
    var r := FirstMatch(texto, estados);
    var i :| FirstHitAt(texto, estados, i) && estados[i].0 == r.value;
    assert i <= k;
  }

  /** A hit at `k` with no hit before it makes the code at `k` the answer. */
  lemma FirstMatchExactly(texto: string, estados: Dict<string, seq<string>>, k: int)
    requires FirstHitAt(texto, estados, k)
    ensures FirstMatch(texto, estados) == Some(estados[k].0)
  {
    var r := FirstMatch(texto, estados);
    var i :| FirstHitAt(texto, estados, i) && estados[i].0 == r.value;
    assert i == k;
  }

  /** A hit at position `k` rules out every code not written up to `k`. */
  lemma FirstMatchBefore(texto: string, estados: Dict<string, seq<string>>, k: int, code: string)
    requires 0 <= k < |estados| && AnyTermMatches(texto, estados[k].1)
    requires forall j :: 0 <= j <= k ==> estados[j].0 != code
    ensures FirstMatch(texto, estados).Some?
    ensures FirstMatch(texto, estados) != Some(code)
  {
    var r := FirstMatch(texto, estados);
    var i :| FirstHitAt(texto, estados, i) && estados[i].0 == r.value;
    assert i <= k;
  }

  /** A whole-word "mato grosso do sul" holds a whole-word "mato grosso". */
  lemma MatoGrossoInsideMatoGrossoDoSul(n: string)
    requires WholeWord(n, "mato grosso do sul")
    ensures WholeWord(n, "mato grosso")
  {
    var i :| 0 <= i <= |n| - |"mato grosso do sul"| && WholeWordAt(n, "mato grosso do sul", i);
    assert "mato grosso do sul"[..11] == "mato grosso";
    assert IsWordChar("mato grosso"[10]) && !IsWordChar("mato grosso do sul"[11]);
    WholeWordOfPrefix(n, "mato grosso do sul", "mato grosso", i);
  }
}
