/** The JavaScript values that record snapshots are made of, and the coercions
    (`Boolean(v)`, `Number(v)`, `String(v)`) and operators (`||`, `&&`, `??`,
    `?.`) that the reporting code applies to them. Numbers are exact reals:
    binary floating point is not modelled. */
module Js {

  datatype Option<+T> = None | Some(value: T)

  /** A JavaScript number: finite (an exact real), NaN, or plus/minus Infinity. */
  datatype Num = Finite(r: real) | NaN | Infinity(negative: bool)

  /** A JavaScript value as it appears in a Firestore document snapshot.
      `Timestamp` stands for any object with a `toDate()` method (a Firestore
      Timestamp); its payload is the instant in milliseconds. */
  datatype Value =
    | Undefined
    | Null
    | Bool(b: bool)
    | Number(n: Num)
    | Str(s: string)
    | Timestamp(millis: int)
    | Object(fields: map<string, Value>)
    | Array(items: seq<Value>)

  /* ---------- truthiness and the short-circuit operators ---------- */

  /** `Boolean(v)`: false exactly for undefined, null, false, 0, NaN and "". */
  predicate Truthy(v: Value) {
    match v
    case Undefined => false
    case Null => false
    case Bool(b) => b
    case Number(n) => n.Infinity? || (n.Finite? && n.r != 0.0)
    case Str(s) => s != ""
    case Timestamp(_) => true
    case Object(_) => true
    case Array(_) => true
  }

  predicate Nullish(v: Value) {
    v.Undefined? || v.Null?
  }

  /** `a || b` */
  function Or(a: Value, b: Value): (r: Value)
    ensures Truthy(a) ==> r == a
    ensures !Truthy(a) ==> r == b
  {
    if Truthy(a) then a else b
  }

  /** `a && b` */
  function And(a: Value, b: Value): (r: Value)
    ensures Truthy(a) ==> r == b
    ensures !Truthy(a) ==> r == a
  {
    if Truthy(a) then b else a
  }

  /** `a ?? b` */
  function Coalesce(a: Value, b: Value): (r: Value)
    ensures Nullish(a) ==> r == b
    ensures !Nullish(a) ==> r == a
  {
    if Nullish(a) then b else a
  }

  /** `v?.[key]`: a missing field, and any property of a non-object, is undefined. */
  function Get(v: Value, key: string): (r: Value)
    ensures !v.Object? ==> r == Undefined
    ensures v.Object? && key in v.fields ==> r == v.fields[key]
  {
    match v
    case Object(fields) => if key in fields then fields[key] else Undefined
    case _ => Undefined
  }

  /** `v?.k0?.k1?. ...` */
  function GetPath(v: Value, path: seq<string>): Value
    decreases path
  {
    if path == [] then v else GetPath(Get(v, path[0]), path[1..])
  }

  /** `[v.k0, v.k1, ...]` */
  function Fields(v: Value, keys: seq<string>): (vs: seq<Value>)
    ensures |vs| == |keys|
    ensures forall i :: 0 <= i < |keys| ==> vs[i] == Get(v, keys[i])
  {
    seq(|keys|, i requires 0 <= i < |keys| => Get(v, keys[i]))
  }

  /** `(v || [])` read as a list; see the README for non-array values. */
  function AsList(v: Value): seq<Value>
  {
    if v.Array? then v.items else []
  }

  /* ---------- characters and strings ---------- */

  /** The characters `String.prototype.trim` removes: WhiteSpace and LineTerminator. */
  predicate IsWhitespace(c: char) {
    c == '\t' || c == '\n' || c == '\U{B}' || c == '\U{C}' || c == '\r' || c == ' '
    || c == '\U{A0}' || c == '\U{1680}' || ('\U{2000}' <= c <= '\U{200A}')
    || c == '\U{2028}' || c == '\U{2029}' || c == '\U{202F}' || c == '\U{205F}'
    || c == '\U{3000}' || c == '\U{FEFF}'
  }

  function TrimStart(s: string): (r: string)
    ensures |r| <= |s|
    ensures forall i :: 0 <= i < |s| - |r| ==> IsWhitespace(s[i])
    ensures r == [] || !IsWhitespace(r[0])
  {
    if s != [] && IsWhitespace(s[0]) then TrimStart(s[1..]) else s
  }

  function TrimEnd(s: string): (r: string)
    ensures |r| <= |s| && r == s[..|r|]
    ensures forall i :: |r| <= i < |s| ==> IsWhitespace(s[i])
    ensures r == [] || !IsWhitespace(r[|r| - 1])
  {
    if s != [] && IsWhitespace(s[|s| - 1]) then TrimEnd(s[..|s| - 1]) else s
  }

  /** A string that `trim` leaves as it is. */
  predicate IsTrimmed(s: string) {
    s == [] || (!IsWhitespace(s[0]) && !IsWhitespace(s[|s| - 1]))
  }

  /** `s.trim()` */
  function Trim(s: string): (r: string)
    ensures IsTrimmed(r)
    ensures |r| <= |s|
    ensures r == [] <==> forall i :: 0 <= i < |s| ==> IsWhitespace(s[i])
  {
    var t := TrimStart(s);
    var r := TrimEnd(t);
    assert r != [] ==> !IsWhitespace(r[0]) by {
      if r != [] { assert r[0] == t[0]; }
    }
    assert t != [] ==> !IsWhitespace(s[|s| - |t|]) by {
      TrimStartSuffix(s);
    }
    r
  }

  /** What `TrimStart` keeps is a suffix of its argument. */
  lemma {:induction false} TrimStartSuffix(s: string)
    ensures TrimStart(s) == s[|s| - |TrimStart(s)|..]
  {
    if s != [] && IsWhitespace(s[0]) {
      TrimStartSuffix(s[1..]);
    }
  }

  lemma {:induction false} TrimStartOfTrimmed(s: string)
    requires s == [] || !IsWhitespace(s[0])
    ensures TrimStart(s) == s
  {
  }

  lemma {:induction false} TrimEndOfTrimmed(s: string)
    requires s == [] || !IsWhitespace(s[|s| - 1])
    ensures TrimEnd(s) == s
  {
  }

  /** `trim` is the identity on trimmed strings, hence idempotent. */
  lemma TrimOfTrimmed(s: string)
    requires IsTrimmed(s)
    ensures Trim(s) == s
  {
    TrimStartOfTrimmed(s);
    TrimEndOfTrimmed(s);
  }

  lemma TrimIdempotent(s: string)
    ensures Trim(Trim(s)) == Trim(s)
  {
    TrimOfTrimmed(Trim(s));
  }

  lemma {:induction false} TrimStartBeforeSolid(a: string, rest: string)
    requires rest != [] && !IsWhitespace(rest[0])
    ensures TrimStart(a + rest) == TrimStart(a) + rest
  {
    if a != [] {
      assert (a + rest)[1..] == a[1..] + rest;
      TrimStartBeforeSolid(a[1..], rest);
    } else {
      assert a + rest == rest;
    }
  }

  lemma {:induction false} TrimEndAfterSolid(rest: string, b: string)
    requires rest != [] && !IsWhitespace(rest[|rest| - 1])
    ensures TrimEnd(rest + b) == rest + TrimEnd(b)
  {
    if b != [] {
      assert (rest + b)[..|rest + b| - 1] == rest + b[..|b| - 1];
      TrimEndAfterSolid(rest, b[..|b| - 1]);
    } else {
      assert rest + b == rest;
    }
  }

  lemma TrimUnfold(s: string)
    ensures Trim(s) == TrimEnd(TrimStart(s))
  {
  }

  lemma TrimAroundSolid(a: string, c: char, b: string)
    requires !IsWhitespace(c)
    ensures Trim(a + [c] + b) == TrimStart(a) + [c] + TrimEnd(b)
  {
    var s := a + [c] + b;
    var ta := TrimStart(a);
    var head := ta + [c];
    assert TrimStart(s) == head + b by {
      var tail := [c] + b;
      assert s == a + tail;
      TrimStartBeforeSolid(a, tail);
      assert ta + tail == head + b;
    }
    assert TrimEnd(head + b) == head + TrimEnd(b) by {
      TrimEndAfterSolid(head, b);
    }
    TrimUnfold(s);
  }

  lemma TrimStartBlank(s: string)
    requires forall i :: 0 <= i < |s| ==> IsWhitespace(s[i])
    ensures TrimStart(s) == []
  {
  }

  lemma TrimEndBlank(s: string)
    requires forall i :: 0 <= i < |s| ==> IsWhitespace(s[i])
    ensures TrimEnd(s) == []
  {
  }

  /** Blanks around a trimmed string are exactly what `trim` removes. */
  lemma TrimBlanksAround(pre: string, core: string, post: string)
    requires core != [] && IsTrimmed(core)
    requires forall i :: 0 <= i < |pre| ==> IsWhitespace(pre[i])
    requires forall i :: 0 <= i < |post| ==> IsWhitespace(post[i])
    ensures Trim(pre + core + post) == core
  {
    var s := pre + core + post;
    var tail := core + post;
    assert s == pre + tail;
    assert tail[0] == core[0];
    TrimStartBeforeSolid(pre, tail);
    TrimStartBlank(pre);
    assert TrimStart(s) == tail;
    TrimEndAfterSolid(core, post);
    TrimEndBlank(post);
    assert TrimEnd(tail) == core;
  }

  function LowerChar(c: char): char {
    if 'A' <= c <= 'Z' then (c as int + 32) as char else c
  }

  /** `s.toLowerCase()`, for ASCII letters. */
  function Lower(s: string): (r: string)
    ensures |r| == |s|
    ensures forall i :: 0 <= i < |s| ==> r[i] == LowerChar(s[i])
  {
    seq(|s|, i requires 0 <= i < |s| => LowerChar(s[i]))
  }

  /** `s.includes(q)` */
  predicate Includes(s: string, q: string) {
    exists i :: 0 <= i <= |s| - |q| && OccursAt(s, q, i)
  }

  predicate OccursAt(s: string, q: string, i: int)
    requires 0 <= i <= |s| - |q|
  {
    s[i..i + |q|] == q
  }

  lemma IncludesEmpty(s: string)
    ensures Includes(s, "")
  {
    assert OccursAt(s, "", 0);
  }

  /** `xs.join(sep)` over strings. */
  function Join(xs: seq<string>, sep: string): (r: string)
    ensures xs == [] ==> r == ""
    ensures |xs| == 1 ==> r == xs[0]
  {
    if xs == [] then "" else if |xs| == 1 then xs[0] else xs[0] + sep + Join(xs[1..], sep)
  }

  /** Joining two non-empty lists puts one separator between their joins. */
  lemma {:induction false} JoinAppend(xs: seq<string>, ys: seq<string>, sep: string)
    requires xs != [] && ys != []
    ensures Join(xs + ys, sep) == Join(xs, sep) + sep + Join(ys, sep)
  {
    if |xs| == 1 {
      assert (xs + ys)[1..] == ys;
    } else {
      assert (xs + ys)[1..] == xs[1..] + ys;
      JoinAppend(xs[1..], ys, sep);
    }
  }

  /** `c.repeat(n)` for a one-character string. */
  function RepeatChar(c: char, n: nat): (r: string)
    ensures |r| == n
    ensures forall i :: 0 <= i < n ==> r[i] == c
  {
    if n == 0 then "" else [c] + RepeatChar(c, n - 1)
  }

  /* ---------- numbers ---------- */

  predicate IsDigit(c: char) {
    '0' <= c <= '9'
  }

  predicate AllDigits(s: string) {
    forall i :: 0 <= i < |s| ==> IsDigit(s[i])
  }

  function DigitChar(d: nat): (c: char)
    requires d < 10
    ensures IsDigit(c) && c as int - '0' as int == d
  {
    ('0' as int + d) as char
  }

  /** The value of a string of decimal digits. */
  function DigitsValue(s: string): nat
    requires AllDigits(s)
  {
    if s == [] then 0 else DigitsValue(s[..|s| - 1]) * 10 + (s[|s| - 1] as int - '0' as int)
  }

  /** Decimal representation of a natural number, as `String(n)` prints it. */
  function NatToString(n: nat): (r: string)
    ensures r != [] && AllDigits(r)
    ensures DigitsValue(r) == n
    ensures |r| > 1 ==> r[0] != '0'
  {
    if n < 10 then [DigitChar(n)]
    else
      var p := NatToString(n / 10);
      var r := p + [DigitChar(n % 10)];
      assert r[..|r| - 1] == p;
      r
  }

  function IntToString(i: int): string {
    if i < 0 then "-" + NatToString(-i) else NatToString(i)
  }

  function Pow10(k: nat): (p: nat)
    ensures p >= 1
  {
    if k == 0 then 1 else 10 * Pow10(k - 1)
  }

  /** Index of the first occurrence of `c` in `s`, or `|s|`. */
  function FirstIndex(s: string, c: char): (k: nat)
    ensures k <= |s|
    ensures k < |s| ==> s[k] == c
    ensures forall j :: 0 <= j < k ==> s[j] != c
  {
    if s == [] then 0 else if s[0] == c then 0 else 1 + FirstIndex(s[1..], c)
  }

  /** An unsigned decimal literal: digits, optionally with a fraction, and at least one digit. */
  function DecimalValue(b: string): Option<real>
  {
    var k := FirstIndex(b, '.');
    var whole := b[..k];
    var frac := if k < |b| then b[k + 1..] else "";
    if |whole| + |frac| == 0 || !AllDigits(whole) || !AllDigits(frac) then None
    else Some(DigitsValue(whole) as real + DigitsValue(frac) as real / Pow10(|frac|) as real)
  }

  /** `Number(s)` for a string (the StringToNumber conversion). Hexadecimal,
      octal, binary and exponent forms are not modelled and give NaN. */
  function StringToNumber(s: string): (n: Num)
    ensures Trim(s) == "" ==> n == Finite(0.0)
  {
    var t := Trim(s);
    if t == "" then Finite(0.0)
    else if t == "Infinity" || t == "+Infinity" then Infinity(false)
    else if t == "-Infinity" then Infinity(true)
    else
      var negative := t[0] == '-';
      var body := if t[0] == '-' || t[0] == '+' then t[1..] else t;
      match DecimalValue(body)
      case Some(x) => Finite(if negative then -x else x)
      case None => NaN
  }

  /** `Number(v)`. A Timestamp converts to NaN in this model. */
  function ToNumber(v: Value): Num
  {
    match v
    case Undefined => NaN
    case Null => Finite(0.0)
    case Bool(b) => Finite(if b then 1.0 else 0.0)
    case Number(n) => n
    case Str(s) => StringToNumber(s)
    case Timestamp(_) => NaN
    case Object(_) => NaN
    case Array(_) => StringToNumber(ToString(v))
  }

  /** Up to `k` digits of the fraction `f`, 0 < f < 1. */
  function FractionDigits(f: real, k: nat): string
    requires 0.0 < f < 1.0 && k >= 1
    decreases k
  {
    var d := (f * 10.0).Floor;
    var rest := f * 10.0 - d as real;
    if rest == 0.0 || k == 1 then [DigitChar(d)]
    else [DigitChar(d)] + FractionDigits(rest, k - 1)
  }

  function PositiveToString(x: real): string
    requires x > 0.0
  {
    var whole := x.Floor;
    var f := x - whole as real;
    if f == 0.0 then NatToString(whole)
    else NatToString(whole) + "." + FractionDigits(f, 20)
  }

  /** `String(n)` for a number: exact for integers and for fractions of up to
      20 decimal digits; exponent notation is not modelled. */
  function NumberToString(n: Num): string
  {
    match n
    case NaN => "NaN"
    case Infinity(neg) => if neg then "-Infinity" else "Infinity"
    case Finite(r) =>
      if r == 0.0 then "0" else if r < 0.0 then "-" + PositiveToString(-r) else PositiveToString(r)
  }

  /** An array element inside `String(array)`: null and undefined print as "". */
  function ElementString(v: Value): string
    decreases v, 1
  {
    if Nullish(v) then "" else ToString(v)
  }

  function JoinElements(items: seq<Value>): string
    decreases items, 2
  {
    if items == [] then ""
    else if |items| == 1 then ElementString(items[0])
    else ElementString(items[0]) + "," + JoinElements(items[1..])
  }

  /** `String(v)` */
  function ToString(v: Value): string
    decreases v, 0
  {
    match v
    case Undefined => "undefined"
    case Null => "null"
    case Bool(b) => if b then "true" else "false"
    case Number(n) => NumberToString(n)
    case Str(s) => s
    case Timestamp(ms) =>
      "Timestamp(seconds=" + IntToString(ms / 1000) + ", nanoseconds=" + NatToString((ms % 1000) * 1000000) + ")"
    case Object(_) => "[object Object]"
    case Array(items) => JoinElements(items)
  }

  /** `Math.round(x)` on a finite value: ties round up. */
  function Round(x: real): (k: int)
    ensures k as real - 0.5 <= x < k as real + 0.5
  {
    (x + 0.5).Floor
  }

  lemma RoundOfInt(k: int)
    ensures Round(k as real) == k
  {
  }

  lemma RoundMonotone(x: real, y: real)
    requires x <= y
    ensures Round(x) <= Round(y)
  {
  }
}
