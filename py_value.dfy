/**
  Python values as they travel through the core: JSON-like data, database
  rows and records. Dict keys are strings; a dict keeps insertion order.
*/
module PyValue {
  import opened Wrappers
  import opened PyDict
  import opened PyText

  datatype Value =
    | VNone
    | VBool(b: bool)
    | VInt(i: int)
    | VStr(s: string)
    | VList(items: seq<Value>)
    | VDict(entries: Dict<string, Value>)

  /** `d.get(k, default)` on a dict's entries. */
  function GetOr(d: Dict<string, Value>, k: string, default: Value): (r: Value)
    ensures !HasKey(d, k) ==> r == default
  {
    Get(d, k).GetOr(default)
  }

  /** Python truthiness: `bool(v)`. */
  predicate Truthy(v: Value) {
    match v
    case VNone => false
    case VBool(b) => b
    case VInt(i) => i != 0
    case VStr(s) => s != []
    case VList(xs) => xs != []
    case VDict(d) => d != []
  }

  /** Python numbers among the values: `int` and `bool`. */
  predicate IsNumber(v: Value) {
    v.VInt? || v.VBool?
  }

  function NumberOf(v: Value): int
    requires IsNumber(v)
  {
    if v.VInt? then v.i else if v.b then 1 else 0
  }

  /** `a == b`: numbers by value (`True == 1`), strings by content, lists
      item by item, dicts by size and then key by key; values of different
      kinds are never equal, and `==` never raises. */
  predicate Eq(a: Value, b: Value)
    decreases a, 2
  {
    if IsNumber(a) || IsNumber(b) then IsNumber(a) && IsNumber(b) && NumberOf(a) == NumberOf(b)
    else match a
      case VNone => b.VNone?
      case VStr(s) => b.VStr? && b.s == s
      case VList(xs) => b.VList? && ItemsEq(xs, b.items)
      case VDict(d) => b.VDict? && |d| == |b.entries| && EntriesEq(d, b.entries)
      case _ => false
  }

  predicate ItemsEq(xs: seq<Value>, ys: seq<Value>)
    decreases xs, 1
  {
    if xs == [] then ys == []
    else ys != [] && Eq(xs[0], ys[0]) && ItemsEq(xs[1..], ys[1..])
  }

  /** Every key of `d` is in `other`, with an equal value. */
  predicate EntriesEq(d: Dict<string, Value>, other: Dict<string, Value>)
    decreases d, 1
  {
    if d == [] then true
    else
      var e := d[0];
      assert e in d;
      assert e.1 < e;
      HasKey(other, e.0) && Eq(e.1, Get(other, e.0).value) && EntriesEq(d[1..], other)
  }

  /** `a > b`: numbers by value, strings code point by code point, lists at
      the first pair of items that differ (or by length when one is a prefix
      of the other); any other pair of kinds raises `TypeError`. */
  function Gt(a: Value, b: Value): (r: Result<bool>)
    ensures a.VNone? || a.VDict? || b.VNone? || b.VDict? ==> r.Failure?
    decreases a, 2
  {
    if IsNumber(a) && IsNumber(b) then Success(NumberOf(a) > NumberOf(b))
    else if a.VStr? && b.VStr? then Success(Less(b.s, a.s))
    else if a.VList? && b.VList? then ItemsGt(a.items, b.items)
    else Failure("TypeError")
  }

  function ItemsGt(xs: seq<Value>, ys: seq<Value>): Result<bool>
    decreases xs, 1
  {
    if xs == [] || ys == [] then Success(|xs| > |ys|)
    else if Eq(xs[0], ys[0]) then ItemsGt(xs[1..], ys[1..])
    else Gt(xs[0], ys[0])
  }

  /** A number and a string are never ordered. */
  lemma GtMixedRaises(a: Value, b: Value)
    requires (IsNumber(a) && b.VStr?) || (a.VStr? && IsNumber(b))
    ensures Gt(a, b).Failure? && Gt(b, a).Failure?
  {
  }

  /** Between strings `>` is a strict total order. */
  lemma GtStrings(a: Value, b: Value)
    requires a.VStr? && b.VStr?
    ensures Gt(a, b).Success? && Gt(b, a).Success?
    ensures !(Gt(a, b).value && Gt(b, a).value)
    ensures a != b ==> Gt(a, b).value || Gt(b, a).value
    ensures a == b ==> !Gt(a, b).value
  {
    if a == b {
      LessIrreflexive(a.s);
    } else {
      LessTotal(a.s, b.s);
      if Less(a.s, b.s) && Less(b.s, a.s) {
        LessTransitive(a.s, b.s, a.s);
        LessIrreflexive(a.s);
      }
    }
  }

  /** Decimal digits of a natural number. */
  function NatToStr(n: nat): (r: string)
    ensures r != []
    ensures forall i :: 0 <= i < |r| ==> '0' <= r[i] <= '9'
  {
    if n < 10 then [DigitChar(n)] else NatToStr(n / 10) + [DigitChar(n % 10)]
  }

  function DigitChar(d: nat): (r: char)
    requires d < 10
    ensures '0' <= r <= '9'
  {
    "0123456789"[d]
  }

  /** `str(i)` for an `int`. */
  function IntToStr(i: int): (r: string)
    ensures r != []
  {
    if i < 0 then "-" + NatToStr(-i) else NatToStr(i)
  }

  /** `str(v)`: a string is itself, everything else its `repr`. */
  function Str(v: Value): (r: string)
    ensures v.VStr? ==> r == v.s
  {
    if v.VStr? then v.s else Repr(v)
  }

  /** `repr(v)`. Strings are quoted without escaping inner quotes. */
  function Repr(v: Value): string
    decreases v, 1
  {
    match v
    case VNone => "None"
    case VBool(b) => if b then "True" else "False"
    case VInt(i) => IntToStr(i)
    case VStr(s) => "'" + s + "'"
    case VList(xs) => "[" + ReprItems(xs) + "]"
    case VDict(d) => "{" + ReprEntries(d) + "}"
  }

  function ReprItems(xs: seq<Value>): string
    decreases xs, 0
  {
    if xs == [] then ""
    else if |xs| == 1 then Repr(xs[0])
    else Repr(xs[0]) + ", " + ReprItems(xs[1..])
  }

  function ReprEntries(d: Dict<string, Value>): string
    decreases d, 0
  {
    if d == [] then ""
    else
      var e := d[0];
      assert e in d;
      assert e.1 < e;
      var entry := "'" + e.0 + "': " + Repr(e.1);
      if |d| == 1 then entry else entry + ", " + ReprEntries(d[1..])
  }
}
