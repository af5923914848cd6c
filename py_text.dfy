/**
  Python string primitives used by the query-interpretation layer.

  Strings are `seq<char>` (Unicode scalar values). Each function models one
  `str` method, one `unicodedata` step or one regular-expression idiom that
  the Python code relies on:
    - `Lower`      : `str.lower()` (ASCII and Latin-1)
    - `AsciiFold`  : `unicodedata.normalize("NFKD", s).encode("ascii", "ignore").decode("ascii")`
    - `Strip`      : `str.strip()` with no argument
    - `Contains`   : `sub in s`
    - `WholeWord`  : `re.search(r"\b" + re.escape(term) + r"\b", s) is not None`
    - `ReplaceAll` : `s.replace(pat, rep)`
    - `ReEscape`   : `re.escape(s)`
    - `StartsWith` : `s.startswith(prefix)`
    - `Join`       : `sep.join(parts)`
*/
module PyText {
  import opened Wrappers


  // ---------------------------------------------------------------------
  // Character classes
  // ---------------------------------------------------------------------

  predicate IsAscii(c: char) {
    c < '\U{80}'
  }

  predicate IsAsciiString(s: string) {
    forall i :: 0 <= i < |s| ==> IsAscii(s[i])
  }

  predicate IsUpperAscii(c: char) {
    'A' <= c <= 'Z'
  }

  /** No upper-case ASCII letter anywhere in `s`. */
  predicate NoUpperAscii(s: string) {
    forall i :: 0 <= i < |s| ==> !IsUpperAscii(s[i])
  }

  /** Python's `str.isspace()`, for every code point it holds of. */
  predicate IsSpace(c: char) {
    c == ' ' || ('\t' <= c <= '\r') || ('\U{1c}' <= c <= '\U{1f}')
    || c == '\U{85}' || c == '\U{a0}' || c == '\U{1680}'
    || ('\U{2000}' <= c <= '\U{200a}') || c == '\U{2028}' || c == '\U{2029}'
    || c == '\U{202f}' || c == '\U{205f}' || c == '\U{3000}'
  }

  /** Python's `re` word character `\w` for `str` patterns: alphanumerics and `_`.
      Exact on ASCII and Latin-1; the Latin Extended letters count as word
      characters; every other code point is treated as a non-word character. */
  predicate IsWordChar(c: char) {
    ('a' <= c <= 'z') || ('A' <= c <= 'Z') || ('0' <= c <= '9') || c == '_'
    || c == '\U{aa}' || c == '\U{b2}' || c == '\U{b3}' || c == '\U{b5}'
    || c == '\U{b9}' || c == '\U{ba}' || ('\U{bc}' <= c <= '\U{be}')
    || ('\U{c0}' <= c <= '\U{ff}' && c != '\U{d7}' && c != '\U{f7}')
    || ('\U{100}' <= c <= '\U{24f}')
  }

  // ---------------------------------------------------------------------
  // str.lower()
  // ---------------------------------------------------------------------

  /** `str.lower()` on one character: ASCII A-Z and the Latin-1 capitals. */
  function LowerChar(c: char): (r: char)
    ensures !IsUpperAscii(r)
    ensures IsAscii(c) <==> IsAscii(r)
    ensures !IsUpperAscii(c) && !('\U{c0}' <= c <= '\U{de}') ==> r == c
  {
    if 'A' <= c <= 'Z' then (c as int + 32) as char
    else if '\U{c0}' <= c <= '\U{de}' && c != '\U{d7}' then (c as int + 32) as char
    else c
  }

  function Lower(s: string): (r: string)
    ensures |r| == |s|
    ensures NoUpperAscii(r)
  {
    seq(|s|, i requires 0 <= i < |s| => LowerChar(s[i]))
  }

  lemma LowerOfLowerAscii(s: string)
    requires IsAsciiString(s) && NoUpperAscii(s)
    ensures Lower(s) == s
  {
  }

  /** Lower-casing twice is lower-casing once. */
  lemma LowerIdempotent(s: string)
    ensures Lower(Lower(s)) == Lower(s)
  {
    forall i | 0 <= i < |s| ensures Lower(Lower(s))[i] == Lower(s)[i] {
      assert Lower(Lower(s))[i] == LowerChar(LowerChar(s[i]));
    }
  }

  // ---------------------------------------------------------------------
  // NFKD decomposition followed by encode("ascii", "ignore")
  // ---------------------------------------------------------------------

  /** The ASCII characters that survive NFKD decomposition of `c` followed by
      dropping every non-ASCII code point. Exact for ASCII and Latin-1
      (U+00A0..U+00FF); every other non-ASCII code point leaves nothing. */
  function FoldChar(c: char): (r: string)
    ensures IsAsciiString(r)
    ensures IsAscii(c) ==> r == [c]
    ensures !IsUpperAscii(c) && !('\U{c0}' <= c <= '\U{de}') ==> NoUpperAscii(r)
  {
    if IsAscii(c) then [c]
    else if c == '\U{a0}' then " "                      // no-break space
    else if c == '\U{a8}' || c == '\U{af}' || c == '\U{b4}' || c == '\U{b8}' then " " // spacing diacritics
    else if c == '\U{aa}' then "a"
    else if c == '\U{b2}' then "2"
    else if c == '\U{b3}' then "3"
    else if c == '\U{b9}' then "1"
    else if c == '\U{ba}' then "o"
    else if c == '\U{bc}' then "14"                      // 1 FRACTION-SLASH 4
    else if c == '\U{bd}' then "12"
    else if c == '\U{be}' then "34"
    else if '\U{c0}' <= c <= '\U{c5}' then "A"
    else if c == '\U{c7}' then "C"
    else if '\U{c8}' <= c <= '\U{cb}' then "E"
    else if '\U{cc}' <= c <= '\U{cf}' then "I"
    else if c == '\U{d1}' then "N"
    else if '\U{d2}' <= c <= '\U{d6}' then "O"
    else if '\U{d9}' <= c <= '\U{dc}' then "U"
    else if c == '\U{dd}' then "Y"
    else if '\U{e0}' <= c <= '\U{e5}' then "a"
    else if c == '\U{e7}' then "c"
    else if '\U{e8}' <= c <= '\U{eb}' then "e"
    else if '\U{ec}' <= c <= '\U{ef}' then "i"
    else if c == '\U{f1}' then "n"
    else if '\U{f2}' <= c <= '\U{f6}' then "o"
    else if '\U{f9}' <= c <= '\U{fc}' then "u"
    else if c == '\U{fd}' || c == '\U{ff}' then "y"
    else ""
  }

  function AsciiFold(s: string): (r: string)
    ensures IsAsciiString(r)
  {
    if s == [] then [] else FoldChar(s[0]) + AsciiFold(s[1..])
  }

  lemma {:induction false} AsciiFoldOfAscii(s: string)
    requires IsAsciiString(s)
    ensures AsciiFold(s) == s
  {
    if s != [] {
      AsciiFoldOfAscii(s[1..]);
    }
  }

  lemma {:induction false} AsciiFoldOfLowerHasNoUpper(s: string)
    ensures NoUpperAscii(AsciiFold(Lower(s)))
  {
    if s != [] {
      var l := Lower(s);
      assert l[1..] == Lower(s[1..]);
      AsciiFoldOfLowerHasNoUpper(s[1..]);
      assert AsciiFold(l) == FoldChar(l[0]) + AsciiFold(Lower(s[1..]));
    }
  }

  // ---------------------------------------------------------------------
  // str.strip()
  // ---------------------------------------------------------------------

  function TrimStart(s: string): (r: string)
    ensures |r| <= |s|
    ensures r == [] || !IsSpace(r[0])
  {
    if s != [] && IsSpace(s[0]) then TrimStart(s[1..]) else s
  }

  function TrimEnd(s: string): (r: string)
    ensures |r| <= |s|
    ensures r == [] || !IsSpace(r[|r| - 1])
  {
    if s != [] && IsSpace(s[|s| - 1]) then TrimEnd(s[..|s| - 1]) else s
  }

  /** Trimming the start leaves a suffix of the text. */
  lemma {:induction false} TrimStartIsSuffix(s: string)
    ensures TrimStart(s) == s[|s| - |TrimStart(s)|..]
    decreases |s|
  {
    if s != [] && IsSpace(s[0]) {
      TrimStartIsSuffix(s[1..]);
    }
  }

  /** Trimming the end leaves a prefix of the text. */
  lemma {:induction false} TrimEndIsPrefix(s: string)
    ensures TrimEnd(s) == s[..|TrimEnd(s)|]
    decreases |s|
  {
    if s != [] && IsSpace(s[|s| - 1]) {
      TrimEndIsPrefix(s[..|s| - 1]);
    }
  }

  /** Neither end of `s` is a whitespace character. */
  predicate IsStripped(s: string) {
    s == [] || (!IsSpace(s[0]) && !IsSpace(s[|s| - 1]))
  }

  function Strip(s: string): (r: string)
    ensures IsStripped(r)
    ensures |r| <= |s|
  {
    var t := TrimStart(s);
    TrimEndIsPrefix(t);
    var r := TrimEnd(t);
    assert r == [] || r[0] == t[0];
    r
  }

  /** The stripped text is a slice of the text. */
  lemma StripIsSlice(s: string)
    ensures exists k :: 0 <= k <= |s| - |Strip(s)| && OccursAt(s, Strip(s), k)
  {
    var t := TrimStart(s);
    TrimStartIsSuffix(s);
    TrimEndIsPrefix(t);
    assert OccursAt(s, Strip(s), |s| - |t|);
  }

  lemma StripOfStripped(s: string)
    requires IsStripped(s)
    ensures Strip(s) == s
  {
  }

  /** Stripping keeps only characters of `s`, so ASCII lower-case text stays so. */
  lemma StripKeepsAsciiLower(s: string)
    requires IsAsciiString(s) && NoUpperAscii(s)
    ensures IsAsciiString(Strip(s)) && NoUpperAscii(Strip(s))
  {
    var r := Strip(s);
    StripIsSlice(s);
    var k :| 0 <= k <= |s| - |r| && OccursAt(s, r, k);
    assert forall i :: 0 <= i < |r| ==> r[i] == s[k + i];
  }

  /** Python's `not s.strip()`: the string is empty or all whitespace. */
  predicate IsBlank(s: string) {
    forall i :: 0 <= i < |s| ==> IsSpace(s[i])
  }

  lemma {:induction false} StripEmptyIffBlank(s: string)
    ensures Strip(s) == [] <==> IsBlank(s)
  {
    if s != [] && IsSpace(s[0]) {
      StripEmptyIffBlank(s[1..]);
      assert TrimStart(s) == TrimStart(s[1..]);
      assert IsBlank(s) <==> IsBlank(s[1..]);
    } else if s != [] {
      assert TrimStart(s) == s;
      assert TrimEnd(s) != [] by {
        TrimEndKeepsNonSpaceHead(s);
      }
    }
  }

  lemma {:induction false} TrimEndKeepsNonSpaceHead(s: string)
    requires s != [] && !IsSpace(s[0])
    ensures TrimEnd(s) != []
    decreases |s|
  {
    if IsSpace(s[|s| - 1]) {
      TrimEndKeepsNonSpaceHead(s[..|s| - 1]);
    }
  }

  // ---------------------------------------------------------------------
  // Substrings and whole-word regular-expression search
  // ---------------------------------------------------------------------

  /** `sub` occurs in `s` starting at `i`. */
  predicate OccursAt(s: string, sub: string, i: int) {
    0 <= i && i + |sub| <= |s| && s[i..i + |sub|] == sub
  }

  /** Python's `sub in s`. */
  predicate Contains(s: string, sub: string) {
    exists i :: 0 <= i <= |s| - |sub| && OccursAt(s, sub, i)
  }

  /** The regex word test at position `p` of `s` (out of range is non-word). */
  predicate WordAt(s: string, p: int) {
    0 <= p < |s| && IsWordChar(s[p])
  }

  /** `\b` at position `p`: a word character on exactly one side. */
  predicate Boundary(s: string, p: int) {
    WordAt(s, p - 1) != WordAt(s, p)
  }

  /** `re.search(r"\b" + re.escape(term) + r"\b", s)` matches at `i`. */
  predicate WholeWordAt(s: string, term: string, i: int) {
    OccursAt(s, term, i) && Boundary(s, i) && Boundary(s, i + |term|)
  }

  /** `re.search(r"\b" + re.escape(term) + r"\b", s) is not None`. */
  predicate WholeWord(s: string, term: string) {
    exists i :: 0 <= i <= |s| - |term| && WholeWordAt(s, term, i)
  }

  lemma WholeWordIsContains(s: string, term: string)
    requires WholeWord(s, term)
    ensures Contains(s, term)
  {
  }

  /** A term holding a non-ASCII character never occurs in an ASCII string. */
  lemma NonAsciiTermNeverOccurs(s: string, term: string, k: nat)
    requires IsAsciiString(s)
    requires k < |term| && !IsAscii(term[k])
    ensures !Contains(s, term)
    ensures !WholeWord(s, term)
  {
  }

  /** Where a greedy `\s*` or `\s+` starting at `p` stops. */
  function SkipSpaces(s: string, p: nat): (r: nat)
    requires p <= |s|
    ensures p <= r <= |s|
    ensures forall k :: p <= k < r ==> IsSpace(s[k])
    ensures r == |s| || !IsSpace(s[r])
    decreases |s| - p
  {
    if p < |s| && IsSpace(s[p]) then SkipSpaces(s, p + 1) else p
  }

  /** Where a greedy `\w*` or `\w+` starting at `p` stops. */
  function SkipWord(s: string, p: nat): (r: nat)
    requires p <= |s|
    ensures p <= r <= |s|
    ensures forall k :: p <= k < r ==> IsWordChar(s[k])
    ensures r == |s| || !IsWordChar(s[r])
    decreases |s| - p
  {
    if p < |s| && IsWordChar(s[p]) then SkipWord(s, p + 1) else p
  }

  /** A whole-word hit of `long` yields a whole-word hit of its prefix `short`
      when `long` continues after `short` with a non-word character. */
  lemma WholeWordOfPrefix(s: string, long: string, short: string, i: int)
    requires WholeWordAt(s, long, i)
    requires |short| < |long| && long[..|short|] == short
    requires |short| > 0 && IsWordChar(short[|short| - 1]) && !IsWordChar(long[|short|])
    ensures WholeWordAt(s, short, i)
  {
    assert s[i..i + |short|] == s[i..i + |long|][..|short|];
    assert s[i + |short|] == long[|short|];
    assert s[i + |short| - 1] == short[|short| - 1];
  }

  // ---------------------------------------------------------------------
  // str.startswith, str.join
  // ---------------------------------------------------------------------

  predicate StartsWith(s: string, prefix: string) {
    |prefix| <= |s| && s[..|prefix|] == prefix
  }

  /** `str.startswith(tuple)`: true iff some prefix of the tuple matches. */
  predicate StartsWithAny(s: string, prefixes: seq<string>) {
    exists i :: 0 <= i < |prefixes| && StartsWith(s, prefixes[i])
  }

  function Join(sep: string, parts: seq<string>): (r: string)
    ensures parts == [] ==> r == []
    ensures |parts| == 1 ==> r == parts[0]
  {
    if parts == [] then []
    else if |parts| == 1 then parts[0]
    else parts[0] + sep + Join(sep, parts[1..])
  }

  /** Every part occurs in the joined text. */
  lemma {:induction false} JoinContainsPart(sep: string, parts: seq<string>, i: int)
    requires 0 <= i < |parts|
    ensures Contains(Join(sep, parts), parts[i])
    decreases |parts|
  {
    var r := Join(sep, parts);
    if i == 0 {
      if |parts| > 1 {
        assert r == parts[0] + (sep + Join(sep, parts[1..]));
      }
      assert r[..|parts[0]|] == parts[0];
      assert OccursAt(r, parts[0], 0);
    } else {
      JoinContainsPart(sep, parts[1..], i - 1);
      var rest := Join(sep, parts[1..]);
      var p := parts[i];
      assert parts[1..][i - 1] == p;
      var k :| 0 <= k <= |rest| - |p| && OccursAt(rest, p, k);
      var off := |parts[0]| + |sep|;
      assert r == (parts[0] + sep) + rest;
      assert r[off + k..off + k + |p|] == rest[k..k + |p|];
      assert OccursAt(r, p, off + k);
    }
  }

  /** `s.count(c)` for one character. */
  function CountChar(s: string, c: char): nat
    decreases |s|
  {
    if s == [] then 0 else (if s[0] == c then 1 else 0) + CountChar(s[1..], c)
  }

  lemma {:induction false} CountCharAppend(a: string, b: string, c: char)
    ensures CountChar(a + b, c) == CountChar(a, c) + CountChar(b, c)
    decreases |a|
  {
    if a == [] {
      assert a + b == b;
    } else {
      assert (a + b)[0] == a[0] && (a + b)[1..] == a[1..] + b;
      CountCharAppend(a[1..], b, c);
    }
  }

  /** Joining parts that do not hold `c` adds one `c` per separator. */
  lemma {:induction false} JoinCount(sep: string, parts: seq<string>, c: char)
    requires forall i :: 0 <= i < |parts| ==> CountChar(parts[i], c) == 0
    ensures CountChar(Join(sep, parts), c) == if parts == [] then 0 else (|parts| - 1) * CountChar(sep, c)
    decreases |parts|
  {
    if |parts| > 1 {
      JoinCount(sep, parts[1..], c);
      CountCharAppend(parts[0], sep, c);
      CountCharAppend(parts[0] + sep, Join(sep, parts[1..]), c);
    }
  }

  /** `sep.join([p] * n)` is `n` copies of `p` with `n - 1` separators. */
  lemma {:induction false} JoinRepeatLength(sep: string, p: string, n: nat)
    requires n >= 1
    ensures |Join(sep, seq(n, _ => p))| == n * |p| + (n - 1) * |sep|
    decreases n
  {
    var parts := seq(n, _ => p);
    if n > 1 {
      assert parts[1..] == seq(n - 1, _ => p);
      JoinRepeatLength(sep, p, n - 1);
    }
  }

  // ---------------------------------------------------------------------
  // str.replace(old, new)
  // ---------------------------------------------------------------------

  /** A text without `pat` is left alone by `replace`. */
  lemma {:induction false} ReplaceAllAbsent(s: string, pat: string, rep: string)
    requires |pat| > 0 && !Contains(s, pat)
    ensures ReplaceAll(s, pat, rep) == s
    decreases |s|
  {
    if |s| >= |pat| {
      assert !OccursAt(s, pat, 0);
      assert !Contains(s[1..], pat) by {
        forall i | 0 <= i <= |s[1..]| - |pat| ensures !OccursAt(s[1..], pat, i) {
          assert !OccursAt(s, pat, i + 1);
          assert s[1..][i..i + |pat|] == s[i + 1..i + 1 + |pat|];
        }
      }
      ReplaceAllAbsent(s[1..], pat, rep);
    }
  }

  /** An occurrence inside a slice of `s` is an occurrence in `s`. */
  lemma ContainsOfSlice(s: string, r: string, k: int, sub: string)
    requires OccursAt(s, r, k) && Contains(r, sub)
    ensures Contains(s, sub)
  {
    var i :| 0 <= i <= |r| - |sub| && OccursAt(r, sub, i);
    forall j | 0 <= j < |sub| ensures s[k + i + j] == sub[j] {
      assert r[i + j] == sub[j];
      assert s[k..k + |r|][i + j] == s[k + i + j];
    }
    assert s[k + i..k + i + |sub|] == sub;
    assert OccursAt(s, sub, k + i);
  }

  /** Stripping cannot create an occurrence. */
  lemma StripKeepsAbsent(s: string, sub: string)
    requires !Contains(s, sub)
    ensures !Contains(Strip(s), sub)
  {
    StripIsSlice(s);
    var k :| 0 <= k <= |s| - |Strip(s)| && OccursAt(s, Strip(s), k);
    if Contains(Strip(s), sub) {
      ContainsOfSlice(s, Strip(s), k, sub);
    }
  }

  /** An occurrence of `long` holds an occurrence of its prefix. */
  lemma ContainsOfPrefix(s: string, long: string, short: string)
    requires Contains(s, long) && |short| <= |long| && long[..|short|] == short
    ensures Contains(s, short)
  {
    var i :| 0 <= i <= |s| - |long| && OccursAt(s, long, i);
    assert s[i..i + |short|] == s[i..i + |long|][..|short|];
    assert OccursAt(s, short, i);
  }

  /** Python's `s.replace(pat, rep)`: every non-overlapping occurrence of
      `pat`, scanning left to right, is replaced by `rep`. */
  function ReplaceAll(s: string, pat: string, rep: string): (r: string)
    requires |pat| > 0
    decreases |s|
  {
    if |s| < |pat| then s
    else if s[..|pat|] == pat then rep + ReplaceAll(s[|pat|..], pat, rep)
    else [s[0]] + ReplaceAll(s[1..], pat, rep)
  }

  /** Replacing one character by another keeps the length and changes
      exactly the positions that held it. */
  lemma {:induction false} ReplaceAllChar(s: string, a: char, b: char)
    ensures |ReplaceAll(s, [a], [b])| == |s|
    ensures forall i :: 0 <= i < |s| ==> ReplaceAll(s, [a], [b])[i] == if s[i] == a then b else s[i]
    decreases |s|
  {
    if |s| >= 1 {
      ReplaceAllChar(s[1..], a, b);
      var rest := ReplaceAll(s[1..], [a], [b]);
      if s[..1] == [a] {
        assert ReplaceAll(s, [a], [b]) == [b] + rest;
      } else {
        assert ReplaceAll(s, [a], [b]) == [s[0]] + rest;
      }
    }
  }

  // ---------------------------------------------------------------------
  // str.title()
  // ---------------------------------------------------------------------

  predicate IsAsciiLetter(c: char) {
    'a' <= c <= 'z' || 'A' <= c <= 'Z'
  }

  /** Python's cased characters (letters with a case, and the ordinal
      indicators, which Unicode counts as lower case) on ASCII and Latin-1.
      Every code point above U+00FF is treated as uncased. */
  predicate IsCased(c: char) {
    IsAsciiLetter(c) || c == '\U{aa}' || c == '\U{b5}' || c == '\U{ba}'
    || ('\U{c0}' <= c <= '\U{ff}' && c != '\U{d7}' && c != '\U{f7}')
  }

  /** The capitals of ASCII and Latin-1. */
  predicate IsUpperLatin(c: char) {
    IsUpperAscii(c) || ('\U{c0}' <= c <= '\U{de}' && c != '\U{d7}')
  }

  /** Cased characters whose capital is a Latin-1 capital: every letter but
      ß, ÿ, µ and the ordinal indicators. */
  predicate HasLatinCapital(c: char) {
    IsAsciiLetter(c) || ('\U{c0}' <= c <= '\U{fe}' && c != '\U{d7}' && c != '\U{f7}' && c != '\U{df}')
  }

  /** The title-case form of one character: small letters become capitals
      (µ and ÿ become U+039C and U+0178); ß, the ordinal indicators and
      uncased characters are kept. */
  function TitleChar(c: char): char {
    if 'a' <= c <= 'z' || ('\U{e0}' <= c <= '\U{fe}' && c != '\U{f7}') then (c as int - 32) as char
    else if c == '\U{b5}' then '\U{39c}'
    else if c == '\U{ff}' then '\U{178}'
    else c
  }

  /** Position `i` starts a word: no cased character right before it. */
  predicate StartsWord(s: string, i: nat)
    requires i < |s|
  {
    i == 0 || !IsCased(s[i - 1])
  }

  /** `str.title()`: a cased character right after a cased character is
      lower-cased, any other character title-cased. */
  function Title(s: string): (r: string)
    ensures |r| == |s|
  {
    seq(|s|, i requires 0 <= i < |s| => TitleAt(s, i))
  }

  function TitleAt(s: string, i: nat): char
    requires i < |s|
  {
    if StartsWord(s, i) then TitleChar(s[i]) else LowerChar(s[i])
  }

  /** What `Title` does to each character: uncased characters are kept; a
      letter that starts a word becomes the capital of the same letter, and
      a letter inside a word becomes the small form of the same letter. */
  lemma TitleMeaning(s: string)
    ensures forall i :: 0 <= i < |s| && !IsCased(s[i]) ==> Title(s)[i] == s[i]
    ensures forall i :: 0 <= i < |s| && IsCased(s[i]) && StartsWord(s, i) && HasLatinCapital(s[i]) ==>
              IsUpperLatin(Title(s)[i]) && LowerChar(Title(s)[i]) == LowerChar(s[i])
    ensures forall i :: 0 <= i < |s| && IsCased(s[i]) && !StartsWord(s, i) ==>
              IsCased(Title(s)[i]) && !IsUpperLatin(Title(s)[i]) && LowerChar(Title(s)[i]) == LowerChar(s[i])
    ensures forall i :: 0 <= i < |s| && StartsWord(s, i) && s[i] == '\U{b5}' ==> Title(s)[i] == '\U{39c}'
    ensures forall i :: 0 <= i < |s| && StartsWord(s, i) && s[i] == '\U{ff}' ==> Title(s)[i] == '\U{178}'
    ensures forall i :: 0 <= i < |s| && StartsWord(s, i) && s[i] in "\U{aa}\U{ba}\U{df}" ==> Title(s)[i] == s[i]
  {
    forall i | 0 <= i < |s|
      ensures !IsCased(s[i]) ==> Title(s)[i] == s[i]
      ensures IsCased(s[i]) && StartsWord(s, i) && HasLatinCapital(s[i]) ==>
                IsUpperLatin(Title(s)[i]) && LowerChar(Title(s)[i]) == LowerChar(s[i])
      ensures IsCased(s[i]) && !StartsWord(s, i) ==>
                IsCased(Title(s)[i]) && !IsUpperLatin(Title(s)[i]) && LowerChar(Title(s)[i]) == LowerChar(s[i])
    {
      assert Title(s)[i] == TitleAt(s, i);
    }
  }

  /** A Latin-1 letter does not break a word. */
  lemma TitleExample()
    ensures Title("educa\U{e7}\U{e3}o b\U{e1}sica") == "Educa\U{e7}\U{e3}o B\U{e1}sica"
  {
  }

  // ---------------------------------------------------------------------
  // Python's string order
  // ---------------------------------------------------------------------

  /** `a < b` on str: code point by code point, a proper prefix first. */
  predicate Less(a: string, b: string)
    decreases |a|
  {
    if a == [] then b != []
    else if b == [] then false
    else if a[0] != b[0] then a[0] < b[0]
    else Less(a[1..], b[1..])
  }

  lemma {:induction false} LessIrreflexive(a: string)
    ensures !Less(a, a)
    decreases |a|
  {
    if a != [] {
      LessIrreflexive(a[1..]);
    }
  }

  lemma {:induction false} LessTransitive(a: string, b: string, c: string)
    requires Less(a, b) && Less(b, c)
    ensures Less(a, c)
    decreases |a|
  {
    if a != [] && a[0] == b[0] && b[0] == c[0] {
      LessTransitive(a[1..], b[1..], c[1..]);
    }
  }

  lemma {:induction false} LessTotal(a: string, b: string)
    requires a != b
    ensures Less(a, b) || Less(b, a)
    decreases |a|
  {
    if a != [] && b != [] && a[0] == b[0] {
      assert a == [a[0]] + a[1..] && b == [b[0]] + b[1..];
      LessTotal(a[1..], b[1..]);
    }
  }

  // ---------------------------------------------------------------------
  // re.escape
  // ---------------------------------------------------------------------

  /** The characters `re.escape` prefixes with a backslash (Python 3.7+). */
  predicate IsRegexSpecial(c: char) {
    c in "()[]{}?*+-|^$\\.&~# \t\n\r\U{b}\U{c}"
  }

  function ReEscape(s: string): (r: string)
    ensures |s| <= |r| <= 2 * |s|
  {
    if s == [] then []
    else (if IsRegexSpecial(s[0]) then ['\\', s[0]] else [s[0]]) + ReEscape(s[1..])
  }

  /** Reading an escaped pattern back: a backslash stands for the character after it. */
  function Unescape(p: string): (r: string)
    decreases |p|
  {
    if p == [] then []
    else if p[0] == '\\' && |p| >= 2 then [p[1]] + Unescape(p[2..])
    else [p[0]] + Unescape(p[1..])
  }

  /** `re.escape` loses nothing: the escaped pattern denotes the literal text. */
  lemma {:induction false} UnescapeEscape(s: string)
    ensures Unescape(ReEscape(s)) == s
  {
    if s != [] {
      UnescapeEscape(s[1..]);
      var head := if IsRegexSpecial(s[0]) then ['\\', s[0]] else [s[0]];
      assert ReEscape(s) == head + ReEscape(s[1..]);
      if IsRegexSpecial(s[0]) {
        assert (head + ReEscape(s[1..]))[2..] == ReEscape(s[1..]);
      } else {
        assert s[0] != '\\';
        assert (head + ReEscape(s[1..]))[1..] == ReEscape(s[1..]);
      }
    }
  }

  // ---------------------------------------------------------------------
  // re.search: the leftmost position where a pattern matches
  // ---------------------------------------------------------------------

  /** Tries `at(i)`, `at(i + 1)`, ..., `at(n)` and returns the first match. */
  function Leftmost<T>(at: nat -> Option<T>, i: nat, n: nat): Option<T>
    decreases n - i
  {
    if i > n then None
    else if at(i).Some? then at(i)
    else Leftmost(at, i + 1, n)
  }

  /** Nothing is found exactly when no position from `i` to `n` matches. */
  lemma {:induction false} LeftmostNone<T>(at: nat -> Option<T>, i: nat, n: nat)
    ensures Leftmost(at, i, n).None? <==> forall j :: i <= j <= n ==> at(j).None?
    decreases n - i
  {
    if i <= n && at(i).None? {
      LeftmostNone(at, i + 1, n);
    }
  }

  /** What is found is the match at the first matching position. */
  lemma {:induction false} LeftmostIsFirst<T>(at: nat -> Option<T>, i: nat, n: nat)
    requires Leftmost(at, i, n).Some?
    ensures exists j :: i <= j <= n && at(j) == Leftmost(at, i, n)
                        && forall j' :: i <= j' < j ==> at(j').None?
    decreases n - i
  {
    if at(i).None? {
      LeftmostIsFirst(at, i + 1, n);
    }
  }

  /** A match at `j` with none before it is what is found. */
  lemma {:induction false} LeftmostAt<T>(at: nat -> Option<T>, i: nat, j: nat, n: nat)
    requires i <= j <= n && at(j).Some?
    requires forall j' :: i <= j' < j ==> at(j').None?
    ensures Leftmost(at, i, n) == at(j)
    decreases j - i
  {
    if i < j {
      LeftmostAt(at, i + 1, j, n);
    }
  }
}
