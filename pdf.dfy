/** docs/js/pdf.js: star strings, the seven-rating average rounded to one
    decimal, and the WhatsApp summary of a record. */
module Pdf {
  import opened Js
  import opened Schema
  import Ratings

  const STAR: char := '\U{2B50}'

  /** The number of stars `repeat` draws for a positive rating: the rating
      clamped into [1, 5], its fraction dropped. */
  function StarCount(x: real): (k: nat)
    requires x > 0.0
    ensures 1 <= k <= 5
    ensures x >= 5.0 ==> k == 5
    ensures x < 1.0 ==> k == 1
    ensures 1.0 <= x < 5.0 ==> k as real <= x < k as real + 1.0
  {
    var c := if x > 5.0 then 5.0 else if x < 1.0 then 1.0 else x;
    c.Floor
  }

  /** `stars(n)` */
  function Stars(n: Value): (r: string)
    ensures !Ratings.Eligible(n) ==> r == DASH
    ensures Ratings.Eligible(n) ==> r == RepeatChar(STAR, StarCount(ToNumber(n).r))
  {
    var v := ToNumber(n);
    if !v.Finite? || v.r <= 0.0 then DASH
    else RepeatChar(STAR, StarCount(v.r))
  }

  /** A whole rating k from 1 up draws min(k, 5) stars. */
  lemma StarsOfLevel(k: int)
    requires k >= 1
    ensures Stars(Number(Finite(k as real))) == RepeatChar(STAR, if k < 5 then k else 5)
  {
  }

  /** The dash is shown exactly for ratings that are not finite and positive;
      otherwise one to five stars and nothing else. */
  lemma StarsShape(n: Value)
    ensures Stars(n) == DASH <==> !Ratings.Eligible(n)
    ensures Ratings.Eligible(n) ==> 1 <= |Stars(n)| <= 5 && forall i :: 0 <= i < |Stars(n)| ==> Stars(n)[i] == STAR
  {
    if Ratings.Eligible(n) {
      assert Stars(n)[0] == STAR;
      assert DASH[0] != STAR;
    }
  }

  /** `avgAudit(audit)`: null without an audit or without an eligible rating
      among the seven; otherwise their mean rounded to one decimal. */
  function AvgAudit(audit: Value): (r: Option<real>)
    ensures r.None? <==> !Truthy(audit) || forall i :: 0 <= i < |AUDIT_KEYS| ==> !Ratings.Eligible(Get(audit, AUDIT_KEYS[i]))
    ensures r.Some? ==> r.value == Ratings.OneDecimal(Ratings.Avg(Fields(audit, AUDIT_KEYS)).value)
  {
    if !Truthy(audit) then None
    else
      var m := Ratings.Avg(Fields(audit, AUDIT_KEYS));
      if m.None? then None else Some(Ratings.OneDecimal(m.value))
  }

  /** With every rating at most 5 the average stays in [0, 5], and it is a
      whole number of tenths, at most fifty of them. */
  lemma AvgAuditRange(audit: Value) returns (tenths: nat)
    requires forall i :: 0 <= i < |AUDIT_KEYS| && Ratings.Eligible(Get(audit, AUDIT_KEYS[i])) ==>
               Ratings.NumberValue(Get(audit, AUDIT_KEYS[i])) <= 5.0
    ensures AvgAudit(audit).Some? ==> 0.0 <= AvgAudit(audit).value <= 5.0
    ensures AvgAudit(audit).Some? ==> tenths <= 50 && AvgAudit(audit).value == tenths as real / 10.0
  {
    tenths := 0;
    if AvgAudit(audit).Some? {
      var m := AuditMeanBounds(audit);
      Ratings.OneDecimalRange(m, 5);
      tenths := Round(m * 10.0);
    }
  }

  /** The unrounded mean of ratings at most 5 lies in [0, 5]. */
  lemma AuditMeanBounds(audit: Value) returns (m: real)
    requires AvgAudit(audit).Some?
    requires forall i :: 0 <= i < |AUDIT_KEYS| && Ratings.Eligible(Get(audit, AUDIT_KEYS[i])) ==>
               Ratings.NumberValue(Get(audit, AUDIT_KEYS[i])) <= 5.0
    ensures 0.0 <= m <= 5.0 && AvgAudit(audit).value == Ratings.OneDecimal(m)
  {
    var vs := Fields(audit, AUDIT_KEYS);
    Ratings.AvgBounds(vs, 0.0, 5.0);
    m := Ratings.Avg(vs).value;
  }

  /** Only the seven rated fields are read. */
  lemma AvgAuditReadsOnlyKeys(a1: Value, a2: Value)
    requires Truthy(a1) == Truthy(a2)
    requires forall i :: 0 <= i < |AUDIT_KEYS| ==> Get(a1, AUDIT_KEYS[i]) == Get(a2, AUDIT_KEYS[i])
    ensures AvgAudit(a1) == AvgAudit(a2)
  {
    assert Fields(a1, AUDIT_KEYS) == Fields(a2, AUDIT_KEYS);
  }

  /* ---------- the WhatsApp summary ---------- */

  /** Local date-and-time formatting of a timestamp, which reads the time
      zone: a parameter. */
  type Clock = Value -> string

  /** `fmtDate(ts)` */
  function FmtDate(ts: Value, clock: Clock): (r: string)
    ensures !Truthy(ts) ==> r == DASH
    ensures Truthy(ts) ==> r == clock(ts)
  {
    if !Truthy(ts) then DASH else clock(ts)
  }

  /** A field as the summary prints it: its text, or "—" when falsy. */
  function OrDash(v: Value): string {
    ToString(Or(v, Str(DASH)))
  }

  function MetaOf(data: Value): Value {
    Or(Get(data, "meta"), Object(map[]))
  }

  /** The five lines every summary starts with: title, time, sector, name
      and role, force. */
  function HeaderLines(data: Value, clock: Clock): (r: seq<string>)
    ensures |r| == 5
  {
    var m := MetaOf(data);
    ["\U{1F4CB} *סיכום " + ToString(Or(Get(data, "type"), Str("דוח"))) + "*",
     "\U{1F552} " + FmtDate(Get(data, "createdAt"), clock),
     "\U{1F4CD} גזרה: " + OrDash(Get(m, "sector")),
     "\U{1F464} מבצע: " + OrDash(Get(m, "name")) + " (" + OrDash(Get(m, "role")) + ")",
     "\U{1F9E9} כוח: " + OrDash(Get(m, "force"))]
  }

  /** The ratings block is written for an audit record that carries its ratings. */
  predicate HasRatings(data: Value) {
    Get(data, "type") == Str(AUDIT_TYPE) && Truthy(Get(data, "audit"))
  }

  const RATINGS_TITLE: string := "\U{2B50} *ציונים*"

  /** ` | ממוצע: *${avg}/5*` when there is an average. */
  function AverageSuffix(avg: Option<real>): (r: string)
    ensures r == "" <==> avg.None?
  {
    if avg.Some? then " | ממוצע: *" + NumberToString(Finite(avg.value)) + "/5*" else ""
  }

  /** The captions of the seven rating lines, in the order of `AUDIT_KEYS`. */
  const RATING_LABELS: seq<string> := [
    "נראות הכוח", "שמירה על מאמ\U{5F4}ץ", "הכרת הגזרה והיסטוריה", "תקינות ומוכנות",
    "ניקיון העמדה", "איכות שילוח המשימה", "בקיאות במשימה"]

  /** One rating line (docs/js/pdf.js:50-56): its number, its label, its
      stars and, in parentheses, the raw rating or "—" when nullish. */
  function RatingLine(a: Value, i: nat): string
    requires i < 7
  {
    var v := Get(a, AUDIT_KEYS[i]);
    NatToString(i + 1) + ") " + RATING_LABELS[i] + ": " + Stars(v) + " (" + ToString(Coalesce(v, Str(DASH))) + ")"
  }

  const TRAINING_PREFIX: string := "\U{1F3AF} תרגול הכוח: "

  function TrainingOf(a: Value): Value {
    Or(Get(a, "forceTraining"), Object(map[]))
  }

  /** `yes` and `no` in the record's words; anything else is a dash. */
  function TrainedWord(ft: Value): string {
    if Get(ft, "trained") == Str("yes") then "כן"
    else if Get(ft, "trained") == Str("no") then "לא"
    else DASH
  }

  function TrainingKindWord(ft: Value): string {
    if Get(ft, "trainingType") == Str("methodical") then "מתודי"
    else if Get(ft, "trainingType") == Str("practical") then "מעשי"
    else DASH
  }

  /** The training line; the training kind follows in parentheses only when the force trained. */
  function TrainingLine(a: Value): string {
    var ft := TrainingOf(a);
    TRAINING_PREFIX + TrainedWord(ft) + (if Get(ft, "trained") == Str("yes") then " (" + TrainingKindWord(ft) + ")" else "")
  }

  /** An empty line, the title with the average, the seven ratings and the training line. */
  function RatingsBlock(data: Value): (r: seq<string>)
    ensures HasRatings(data) ==> |r| == 10
    ensures !HasRatings(data) ==> r == []
  {
    if !HasRatings(data) then []
    else
      var a := Get(data, "audit");
      ["", RATINGS_TITLE + AverageSuffix(AvgAudit(a))] + RatingLines(a) + [TrainingLine(a)]
  }

  /** The seven rating lines, numbered 1 to 7. */
  function RatingLines(a: Value): (r: seq<string>)
    ensures |r| == 7
    ensures forall i :: 0 <= i < 7 ==> r[i] == RatingLine(a, i)
  {
    seq(7, i requires 0 <= i < 7 => RatingLine(a, i))
  }

  /** The notes block: an empty line, the caption and the notes, when there are notes. */
  function NotesBlock(data: Value): (r: seq<string>)
    ensures Truthy(Get(data, "notes")) ==> |r| == 3
    ensures !Truthy(Get(data, "notes")) ==> r == []
  {
    if Truthy(Get(data, "notes")) then ["", "\U{1F4DD} הערות:", ToString(Get(data, "notes"))] else []
  }

  const KEEP_TITLE: string := "\U{2705} נק\U{5F3} לשימור:"
  const IMPROVE_TITLE: string := "\U{1F6E0}\U{FE0F} נק\U{5F3} לשיפור:"
  const MAX_ITEMS: nat := 3

  /** One numbered list item, counting from 1. */
  function ItemLine(i: nat, x: Value): string {
    NatToString(i + 1) + ". " + ToString(x)
  }

  function ItemLines(xs: seq<Value>): (r: seq<string>)
    ensures |r| == |xs|
    ensures forall i :: 0 <= i < |xs| ==> r[i] == ItemLine(i, xs[i])
  {
    seq(|xs|, i requires 0 <= i < |xs| => ItemLine(i, xs[i]))
  }

  /** The items shown: the first three. */
  function Shown(items: seq<Value>): (r: seq<Value>)
    ensures |r| <= MAX_ITEMS && |r| <= |items| && r == items[..|r|]
    ensures |r| == if |items| < MAX_ITEMS then |items| else MAX_ITEMS
  {
    if |items| <= MAX_ITEMS then items else items[..MAX_ITEMS]
  }

  /** A list block: nothing for an empty list, otherwise an empty line, the
      title, and the first (at most three) items numbered from 1. */
  function ListBlock(title: string, items: seq<Value>): (r: seq<string>)
  {
    if |items| == 0 then [] else ["", title] + ItemLines(Shown(items))
  }

  lemma ListBlockShape(title: string, items: seq<Value>)
    ensures ListBlock(title, items) == [] <==> items == []
    ensures items != [] ==> |ListBlock(title, items)| == 2 + |Shown(items)| <= 5
    ensures items != [] ==> ListBlock(title, items)[1] == title
    ensures items != [] ==> forall i :: 0 <= i < |Shown(items)| ==>
              ListBlock(title, items)[2 + i] == NatToString(i + 1) + ". " + ToString(items[i])
  {
  }

  /** The lines of the summary, in order. */
  function WhatsappLines(data: Value, clock: Clock): seq<string> {
    HeaderLines(data, clock) + RatingsBlock(data) + NotesBlock(data)
    + ListBlock(KEEP_TITLE, AsList(Get(data, "keep")))
    + ListBlock(IMPROVE_TITLE, AsList(Get(data, "improve")))
  }

  /** `buildWhatsappText(data)`: the lines pushed one by one, joined with line feeds. */
  method BuildWhatsappText(data: Value, clock: Clock) returns (text: string)
    ensures text == Join(WhatsappLines(data, clock), "\n")
  {
    var m := MetaOf(data);
    var lines: seq<string> := [];
    lines := lines + ["\U{1F4CB} *סיכום " + ToString(Or(Get(data, "type"), Str("דוח"))) + "*"];
    lines := lines + ["\U{1F552} " + FmtDate(Get(data, "createdAt"), clock)];
    lines := lines + ["\U{1F4CD} גזרה: " + OrDash(Get(m, "sector"))];
    lines := lines + ["\U{1F464} מבצע: " + OrDash(Get(m, "name")) + " (" + OrDash(Get(m, "role")) + ")"];
    lines := lines + ["\U{1F9E9} כוח: " + OrDash(Get(m, "force"))];
    assert lines == HeaderLines(data, clock);

    lines := PushRatings(lines, data);
    lines := PushNotes(lines, data);
    lines := PushList(lines, KEEP_TITLE, AsList(Get(data, "keep")));
    lines := PushList(lines, IMPROVE_TITLE, AsList(Get(data, "improve")));
    text := Join(lines, "\n");
  }

  /** The ratings step: pushed only for an audit record with its ratings. */
  method PushRatings(lines: seq<string>, data: Value) returns (r: seq<string>)
    ensures r == lines + RatingsBlock(data)
  {
    r := lines;
    if Get(data, "type") == Str(AUDIT_TYPE) && Truthy(Get(data, "audit")) {
      var a := Get(data, "audit");
      var avg := AvgAudit(a);
      r := r + [""];
      r := r + [RATINGS_TITLE + AverageSuffix(avg)];
      r := PushRatingLines(r, a);
      r := r + [TrainingLine(a)];
      PushedBlock(lines, RATINGS_TITLE + AverageSuffix(avg), RatingLines(a), TrainingLine(a));
    }
  }

  /** Pushing a blank line, a title, some rows and a last line one by one
      appends the block they form. */
  lemma PushedBlock(lines: seq<string>, title: string, rows: seq<string>, last: string)
    ensures lines + [""] + [title] + rows + [last] == lines + (["", title] + rows + [last])
  {
  }

  /** The seven rating lines, pushed in order. */
  method PushRatingLines(lines: seq<string>, a: Value) returns (r: seq<string>)
    ensures r == lines + RatingLines(a)
  {
    r := lines;
    ghost var rows := RatingLines(a);
    var k := 0;
    while k < 7
      invariant 0 <= k <= 7
      invariant r == lines + rows[..k]
    {
      r := r + [RatingLine(a, k)];
      assert rows[..k + 1] == rows[..k] + [rows[k]];
      k := k + 1;
    }
    assert rows[..7] == rows;
  }

  /** The notes step. */
  method PushNotes(lines: seq<string>, data: Value) returns (r: seq<string>)
    ensures r == lines + NotesBlock(data)
  {
    r := lines;
    if Truthy(Get(data, "notes")) {
      r := r + [""];
      r := r + ["\U{1F4DD} הערות:"];
      r := r + [ToString(Get(data, "notes"))];
    }
  }

  /** The list step of the summary for one list (docs/js/pdf.js:71-82): a
      non-empty list adds a blank line, its title and its first items numbered. */
  method PushList(lines: seq<string>, title: string, items: seq<Value>) returns (r: seq<string>)
    ensures r == lines + ListBlock(title, items)
  {
    r := lines;
    if |items| > 0 {
      r := r + [""];
      r := r + [title];
      var shown := Shown(items);
      for i := 0 to |shown|
        invariant r == lines + ["", title] + ItemLines(shown[..i])
      {
        r := r + [ItemLine(i, shown[i])];
        assert ItemLines(shown[..i + 1]) == ItemLines(shown[..i]) + [ItemLine(i, shown[i])];
      }
      assert shown[..|shown|] == shown;
    }
  }

  /** The summary always opens with the five header lines. */
  lemma WhatsappStartsWithHeader(data: Value, clock: Clock)
    ensures |WhatsappLines(data, clock)| >= 5
    ensures WhatsappLines(data, clock)[..5] == HeaderLines(data, clock)
    ensures var t := Join(WhatsappLines(data, clock), "\n");
            var h := Join(HeaderLines(data, clock), "\n");
            |h| <= |t| && t[..|h|] == h
  {
    var hs := HeaderLines(data, clock);
    var rest := WhatsappLines(data, clock)[5..];
    assert WhatsappLines(data, clock) == hs + rest;
    JoinPrefix(hs, rest, "\n");
  }

  /** The join of a non-empty list is a prefix of the join of any longer one. */
  lemma JoinPrefix(hs: seq<string>, rest: seq<string>, sep: string)
    requires hs != []
    ensures (hs + rest)[..|hs|] == hs
    ensures |Join(hs, sep)| <= |Join(hs + rest, sep)| && Join(hs + rest, sep)[..|Join(hs, sep)|] == Join(hs, sep)
  {
    if rest != [] {
      JoinAppend(hs, rest, sep);
      var h := Join(hs, sep);
      assert Join(hs + rest, sep)[..|h|] == h;
    } else {
      assert hs + rest == hs;
    }
  }

  /** The summary has the header, ten rating lines for a rated audit, three
      note lines when there are notes, and each list's block. */
  lemma WhatsappLineCount(data: Value, clock: Clock)
    ensures |WhatsappLines(data, clock)| ==
              5 + (if HasRatings(data) then 10 else 0) + (if Truthy(Get(data, "notes")) then 3 else 0)
              + |ListBlock(KEEP_TITLE, AsList(Get(data, "keep")))|
              + |ListBlock(IMPROVE_TITLE, AsList(Get(data, "improve")))|
  {
  }

  /** The average appears in the ratings title exactly when there is one. */
  lemma RatingsTitleShowsAverage(data: Value)
    requires HasRatings(data)
    ensures RatingsBlock(data)[1] == RATINGS_TITLE + AverageSuffix(AvgAudit(Get(data, "audit")))
    ensures RatingsBlock(data)[1] == RATINGS_TITLE <==> AvgAudit(Get(data, "audit")).None?
  {
    var s := AverageSuffix(AvgAudit(Get(data, "audit")));
    if s != "" {
      assert |RATINGS_TITLE + s| > |RATINGS_TITLE|;
    }
  }

  /** The training line shows a parenthesised kind exactly when the force
      trained, and says "כן" exactly then. */
  lemma TrainingKindOnlyWhenTrained(a: Value)
    ensures '(' in TrainingLine(a) <==> Get(TrainingOf(a), "trained") == Str("yes")
    ensures Get(TrainingOf(a), "trained") == Str("yes") ==>
              TrainingLine(a) == TRAINING_PREFIX + "כן" + " (" + TrainingKindWord(TrainingOf(a)) + ")"
    ensures Get(TrainingOf(a), "trained") != Str("yes") ==>
              TrainingLine(a) == TRAINING_PREFIX + TrainedWord(TrainingOf(a))
              && TrainedWord(TrainingOf(a)) != "כן"
  {
    var ft := TrainingOf(a);
    var head := TRAINING_PREFIX + TrainedWord(ft);
    assert '(' !in TRAINING_PREFIX;
    assert '(' !in TrainedWord(ft);
    assert '(' !in head;
    if Get(ft, "trained") == Str("yes") {
      var line := head + " (" + TrainingKindWord(ft) + ")";
      assert line[|head| + 1] == '(';
    } else {
      assert "לא" != "כן" && DASH != "כן";
    }
  }
}
