/** docs/js/reports.js: the score column (the seven-rating average printed
    with `toFixed(1)`), its star strings, and the client-side name filter. */
module Reports {
  import opened Js
  import opened Schema
  import Ratings
  import Pdf

  /** A number of tenths `n` printed with one decimal, as `toFixed(1)` prints `n / 10`. */
  function Fixed1(n: nat): (r: string)
    ensures |r| >= 3 && r[|r| - 2] == '.'
  {
    NatToString(n / 10) + ['.', DigitChar(n % 10)]
  }

  /** `x.toFixed(1)` for a non-negative `x`: the nearest number of tenths,
      ties rounded up, printed with one decimal. */
  function ToFixed1(x: real): (r: string)
    requires x >= 0.0
  {
    var k := Round(x * 10.0);
    Fixed1(k)
  }

  /** `avgAudit(audit)`: "—" without an audit or without an eligible rating,
      otherwise the mean of the seven ratings with one decimal. */
  function AvgAudit(audit: Value): (r: string)
    ensures r == DASH <==> Pdf.AvgAudit(audit).None?
  {
    if !Truthy(audit) then DASH
    else
      var m := Ratings.Avg(Fields(audit, AUDIT_KEYS));
      if m.None? then DASH
      else
        var s := ToFixed1(m.value);
        assert s[|s| - 2] == '.';
        assert |DASH| == 1;
        s
  }

  lemma DigitsNoDot(s: string)
    requires AllDigits(s)
    ensures forall i :: 0 <= i < |s| ==> s[i] != '.'
  {
  }

  /** An unsigned literal that starts with a digit is read by `DecimalValue` alone. */
  lemma UnsignedLiteral(s: string)
    requires IsTrimmed(s) && s != [] && IsDigit(s[0])
    ensures StringToNumber(s) == if DecimalValue(s).Some? then Finite(DecimalValue(s).value) else NaN
  {
    TrimOfTrimmed(s);
    assert s != "Infinity" && s != "+Infinity" && s != "-Infinity" by {
      assert "Infinity"[0] == 'I' && "+Infinity"[0] == '+' && "-Infinity"[0] == '-';
    }
  }

  /** The dot after the digits is the first one. */
  lemma DotAfterDigits(w: string, d: char)
    requires AllDigits(w)
    ensures FirstIndex(w + ['.', d], '.') == |w|
  {
    var s := w + ['.', d];
    DigitsNoDot(w);
    assert s[|w|] == '.';
    assert forall i :: 0 <= i < |w| ==> s[i] == w[i];
  }

  lemma SingleDigitValue(d: char)
    requires IsDigit(d)
    ensures DigitsValue([d]) == d as int - '0' as int
  {
    var one: string := [d];
    assert one[..|one| - 1] == [];
    assert one[|one| - 1] == d;
  }

  /** Digits, a dot and one digit: the whole part plus a tenth of the digit. */
  lemma OneFractionDigit(w: string, d: char)
    requires w != [] && AllDigits(w) && IsDigit(d)
    ensures DecimalValue(w + ['.', d]) == Some(DigitsValue(w) as real + (d as int - '0' as int) as real / 10.0)
  {
    var s := w + ['.', d];
    var k := FirstIndex(s, '.');
    assert k == |w| && k < |s| by {
      DotAfterDigits(w, d);
    }
    assert s[..k] == w;
    DecimalOneFraction(s, k);
  }

  /** `DecimalValue` of digits, a dot and one more digit. */
  lemma DecimalOneFraction(b: string, k: nat)
    requires k == FirstIndex(b, '.') && k > 0 && k + 2 == |b|
    requires AllDigits(b[..k]) && IsDigit(b[k + 1])
    ensures DecimalValue(b) == Some(DigitsValue(b[..k]) as real + (b[k + 1] as int - '0' as int) as real / 10.0)
  {
    var d := b[k + 1];
    assert b[k + 1..] == [d];
    SingleDigitValue(d);
    assert Pow10(|[d]|) == 10 by {
      assert Pow10(0) == 1;
    }
    DecimalAtDot(b, k);
  }

  /** `DecimalValue` of a literal whose first dot is at `k`. */
  lemma DecimalAtDot(b: string, k: nat)
    requires k == FirstIndex(b, '.') && k < |b|
    requires AllDigits(b[..k]) && AllDigits(b[k + 1..]) && k > 0
    ensures DecimalValue(b) == Some(DigitsValue(b[..k]) as real + DigitsValue(b[k + 1..]) as real / Pow10(|b[k + 1..]|) as real)
  {
  }

  /** `Number` reads a one-decimal string back as its number of tenths. */
  lemma Fixed1Value(n: nat)
    ensures StringToNumber(Fixed1(n)) == Finite(n as real / 10.0)
  {
    var w, d, q, r := Fixed1Parts(n);
    ReadBackOneDecimal(Fixed1(n), w, d, q, r, n as real / 10.0);
  }

  /** The pieces of `Fixed1(n)`: the digits `w` of the whole part `q`, a dot,
      and the digit `d` of the tenths `r`. */
  lemma Fixed1Parts(n: nat) returns (w: string, d: char, q: nat, r: nat)
    ensures Fixed1(n) == w + ['.', d]
    ensures w != [] && AllDigits(w) && IsDigit(d)
    ensures DigitsValue(w) == q && d as int - '0' as int == r
    ensures n as real / 10.0 == q as real + r as real / 10.0
  {
    w, d, q, r := NatToString(n / 10), DigitChar(n % 10), n / 10, n % 10;
    TenthsSplit(n);
  }

  /** `Number` of digits, a dot and one more digit: the whole part `q` plus `r` tenths. */
  lemma ReadBackOneDecimal(s: string, w: string, d: char, q: nat, r: nat, v: real)
    requires s == w + ['.', d]
    requires w != [] && AllDigits(w) && IsDigit(d)
    requires DigitsValue(w) == q && d as int - '0' as int == r
    requires v == q as real + r as real / 10.0
    ensures StringToNumber(s) == Finite(v)
  {
    LiteralShape(w, d);
    UnsignedLiteral(s);
    OneFractionDigit(w, d);
  }

  /** Digits, a dot and a digit: trimmed, and starting with a digit. */
  lemma LiteralShape(w: string, d: char)
    requires w != [] && AllDigits(w) && IsDigit(d)
    ensures IsTrimmed(w + ['.', d]) && (w + ['.', d]) != [] && IsDigit((w + ['.', d])[0])
  {
    var s := w + ['.', d];
    DigitNotBlank(w[0]);
    DigitNotBlank(d);
    assert s[0] == w[0] && s[|s| - 1] == d;
  }

  lemma DigitNotBlank(c: char)
    requires IsDigit(c)
    ensures !IsWhitespace(c)
  {
  }

  /** Whole part and tenths add back up to the number. */
  lemma TenthsSplit(n: nat)
    ensures (n / 10) as real + (n % 10) as real / 10.0 == n as real / 10.0
  {
    assert n == 10 * (n / 10) + n % 10;
  }


  /** The printed text and the rounded value come from the same number of tenths. */
  lemma AvgAuditTenths(audit: Value) returns (k: nat)
    requires Pdf.AvgAudit(audit).Some?
    ensures AvgAudit(audit) == Fixed1(k)
    ensures Pdf.AvgAudit(audit).value == k as real / 10.0
    ensures StringToNumber(AvgAudit(audit)) == Finite(Pdf.AvgAudit(audit).value)
  {
    var m := Ratings.Avg(Fields(audit, AUDIT_KEYS));
    k := Round(m.value * 10.0);
    assert Ratings.OneDecimal(m.value) == k as real / 10.0;
    Fixed1Value(k);
  }

  /** The column shows the same average as the WhatsApp summary: the printed
      text reads back as the rounded value there. */
  lemma AvgAuditAgree(audit: Value)
    ensures AvgAudit(audit) == DASH <==> Pdf.AvgAudit(audit).None?
    ensures Pdf.AvgAudit(audit).Some? ==> StringToNumber(AvgAudit(audit)) == Finite(Pdf.AvgAudit(audit).value)
  {
    if Pdf.AvgAudit(audit).Some? {
      var k := AvgAuditTenths(audit);
      Fixed1Value(k);
    }
  }

  /** `stars(n)`, with `Math.min` and `Math.max` the other way round. */
  function Stars(n: Value): string
  {
    var v := ToNumber(n);
    if !v.Finite? || v.r <= 0.0 then DASH
    else
      var lo := if v.r >= 1.0 then v.r else 1.0;
      var c := if lo <= 5.0 then lo else 5.0;
      RepeatChar(Pdf.STAR, c.Floor)
  }

  /** Both pages draw the same stars for every rating. */
  lemma StarsAgree(n: Value)
    ensures Stars(n) == Pdf.Stars(n)
  {
  }

  /** The score cell of a row: the average for an audit record, "—" otherwise. */
  function ScoreCell(d: Value): (r: string)
    ensures Get(d, "type") != Str(AUDIT_TYPE) ==> r == DASH
  {
    if Get(d, "type") == Str(AUDIT_TYPE) then AvgAudit(Get(d, "audit")) else DASH
  }

  /** A cell with a number belongs to an audit record with at least one eligible rating. */
  lemma ScoreCellShown(d: Value)
    requires ScoreCell(d) != DASH
    ensures Get(d, "type") == Str(AUDIT_TYPE) && Truthy(Get(d, "audit"))
    ensures exists i :: 0 <= i < |AUDIT_KEYS| && Ratings.Eligible(Get(Get(d, "audit"), AUDIT_KEYS[i]))
  {
  }

  /* ---------- the name filter ---------- */

  /** The name query: the filter field trimmed and lower-cased (docs/js/reports.js:152). */
  function NameQuery(raw: string): string {
    Lower(Trim(raw))
  }

  /** A record's `meta.name` lower-cased, "" when falsy (docs/js/reports.js:221). */
  function NameOf(doc: Value): string {
    Lower(ToString(Or(GetPath(doc, ["meta", "name"]), Str(""))))
  }

  predicate NameMatches(doc: Value, q: string) {
    Includes(NameOf(doc), q)
  }

  /** The name filter (docs/js/reports.js:220-223): the records whose name contains the query, in order. */
  function FilterByName(docs: seq<Value>, q: string): (r: seq<Value>)
    ensures |r| <= |docs|
    ensures forall x :: x in r <==> x in docs && NameMatches(x, q)
  {
    if docs == [] then []
    else
      var rest := FilterByName(docs[1..], q);
      assert forall x :: x in docs[1..] ==> x in docs;
      if NameMatches(docs[0], q) then [docs[0]] + rest else rest
  }

  /** The filter applied by `loadPage`: only for a non-empty query. */
  function NameFilter(docs: seq<Value>, q: string): seq<Value> {
    if q == "" then docs else FilterByName(docs, q)
  }

  /** An empty query keeps every record, as filtering by the empty string would. */
  lemma {:induction false} EmptyQueryKeepsAll(docs: seq<Value>)
    ensures NameFilter(docs, "") == docs
    ensures FilterByName(docs, "") == docs
  {
    if docs != [] {
      IncludesEmpty(NameOf(docs[0]));
      EmptyQueryKeepsAll(docs[1..]);
    }
  }

  /** Filtering a concatenation filters each part: the order of the page is kept. */
  lemma {:induction false} FilterByNameAppend(a: seq<Value>, b: seq<Value>, q: string)
    ensures FilterByName(a + b, q) == FilterByName(a, q) + FilterByName(b, q)
  {
    if a != [] {
      assert (a + b)[1..] == a[1..] + b;
      FilterByNameAppend(a[1..], b, q);
    } else {
      assert a + b == b;
    }
  }

  /** Filtering twice by the same query changes nothing more. */
  lemma {:induction false} FilterByNameIdempotent(docs: seq<Value>, q: string)
    ensures FilterByName(FilterByName(docs, q), q) == FilterByName(docs, q)
  {
    if docs != [] {
      FilterByNameIdempotent(docs[1..], q);
      if NameMatches(docs[0], q) {
        var rest := FilterByName(docs[1..], q);
        assert ([docs[0]] + rest)[1..] == rest;
      }
    }
  }

  /** Exactly the records whose lower-cased name contains the query are
      listed; with the empty query, all of them. */
  lemma NameFilterSpec(docs: seq<Value>, q: string)
    ensures q == "" ==> NameFilter(docs, q) == docs
    ensures forall x :: x in NameFilter(docs, q) <==> x in docs && NameMatches(x, q)
  {
    EmptyQueryKeepsAll(docs);
  }
}
