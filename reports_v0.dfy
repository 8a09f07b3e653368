/** docs/js/reportsV0.js: the traffic-light icon, the weighted audit score and
    the score column, and the payload the edit form saves (with its parser
    for the keep/improve text areas). */
module ReportsV0 {
  import opened Js
  import opened Dates
  import opened Schema
  import Ratings

  /* ---------- traffic light ---------- */

  const GREEN: string := "\U{1F7E2}"
  const CHECK: string := "\U{2705}"
  const SMILE: string := "\U{1F642}"
  const WARNING: string := "\U{26A0}\U{FE0F}"
  const RED: string := "\U{1F534}"

  function Min(a: real, b: real): real { if a <= b then a else b }
  function Max(a: real, b: real): real { if a >= b then a else b }

  /** `clamp1to5(n)`: `Math.max(1, Math.min(5, Number(n) || 0))`. NaN and 0
      become 0 before clamping; the infinities clamp to the ends. */
  function Clamp1to5(n: Value): (v: real)
    ensures 1.0 <= v <= 5.0
    ensures ToNumber(n).Finite? && 1.0 <= ToNumber(n).r <= 5.0 ==> v == ToNumber(n).r
    ensures ToNumber(n).Finite? && ToNumber(n).r > 5.0 ==> v == 5.0
    ensures ToNumber(n) == Infinity(false) ==> v == 5.0
    ensures (ToNumber(n).Finite? && ToNumber(n).r < 1.0) || ToNumber(n) == Infinity(true) || ToNumber(n).NaN? ==> v == 1.0
  {
    match ToNumber(n)
    case NaN => Max(1.0, Min(5.0, 0.0))
    case Infinity(negative) => if negative then 1.0 else 5.0
    case Finite(x) => Max(1.0, Min(5.0, x))
  }

  /** `icon(n)` */
  function Icon(n: Value): string
  {
    var v := Clamp1to5(n);
    if v >= 5.0 then GREEN
    else if v == 4.0 then CHECK
    else if v == 3.0 then SMILE
    else if v == 2.0 then WARNING
    else RED
  }

  /** The icon of a whole-number rating: green from 5 up, then one icon each
      for 4, 3 and 2, and red for 1 and below. */
  lemma IconOfLevel(k: int)
    ensures k >= 5 ==> Icon(Number(Finite(k as real))) == GREEN
    ensures k == 4 ==> Icon(Number(Finite(k as real))) == CHECK
    ensures k == 3 ==> Icon(Number(Finite(k as real))) == SMILE
    ensures k == 2 ==> Icon(Number(Finite(k as real))) == WARNING
    ensures k <= 1 ==> Icon(Number(Finite(k as real))) == RED
  {
  }

  /** Green is shown exactly for ratings of at least 5 (and +Infinity). */
  lemma IconGreen(n: Value)
    ensures Icon(n) == GREEN <==>
              ToNumber(n) == Infinity(false) || (ToNumber(n).Finite? && ToNumber(n).r >= 5.0)
  {
    assert GREEN != CHECK && GREEN != SMILE && GREEN != WARNING && GREEN != RED;
  }

  /** Anything that is not a number, and any fraction below 5, is red. */
  lemma IconRed(n: Value)
    requires ToNumber(n).NaN? || ToNumber(n) == Infinity(true)
             || (ToNumber(n).Finite? && ToNumber(n).r < 5.0 && ToNumber(n).r != ToNumber(n).r.Floor as real)
    ensures Icon(n) == RED
  {
    ClampMissesLevels(ToNumber(n), Clamp1to5(n));
  }

  /** A clamped value that is not a whole number below 5 is none of 2, 3, 4 and 5. */
  lemma ClampMissesLevels(x: Num, v: real)
    requires x.NaN? || x == Infinity(true) || (x.Finite? && x.r < 5.0 && x.r != x.r.Floor as real)
    requires x.Finite? && 1.0 <= x.r <= 5.0 ==> v == x.r
    requires (x.Finite? && x.r < 1.0) || x == Infinity(true) || x.NaN? ==> v == 1.0
    ensures v < 5.0 && v != 4.0 && v != 3.0 && v != 2.0
  {
  }

  /** The five levels 1..5 are told apart. */
  lemma IconLevelsDistinct(j: int, k: int)
    requires 1 <= j < k <= 5
    ensures Icon(Number(Finite(j as real))) != Icon(Number(Finite(k as real)))
  {
    IconOfLevel(j);
    IconOfLevel(k);
    assert GREEN != CHECK && GREEN != SMILE && GREEN != WARNING && GREEN != RED;
    assert CHECK != SMILE && CHECK != WARNING && CHECK != RED;
    assert SMILE != WARNING && SMILE != RED && WARNING != RED;
  }

  /* ---------- averages and the 0..100 scale ---------- */

  /** `to100(avg5)`: null stays null, otherwise the nearest integer to `avg5 / 5 * 100`. */
  function To100(a: Option<real>): (r: Option<int>)
    ensures r.None? <==> a.None?
    ensures a.Some? ==> r.value as real - 0.5 <= a.value * 20.0 < r.value as real + 0.5
  {
    if a.None? then None else Some(Round(a.value / 5.0 * 100.0))
  }

  /** The 1..5 scale lands in 20..100, and 0..5 in 0..100. */
  lemma To100Range(x: real)
    requires 0.0 <= x <= 5.0
    ensures 0 <= To100(Some(x)).value <= 100
    ensures x >= 1.0 ==> To100(Some(x)).value >= 20
  {
    RoundMonotone(0.0, x * 20.0);
    RoundMonotone(x * 20.0, 100.0);
    if x >= 1.0 { RoundMonotone(20.0, x * 20.0); }
  }

  lemma To100Monotone(x: real, y: real)
    requires x <= y
    ensures To100(Some(x)).value <= To100(Some(y)).value
  {
    RoundMonotone(x / 5.0 * 100.0, y / 5.0 * 100.0);
  }

  /* ---------- the weighted score ---------- */

  const OP_KEYS: seq<string> :=
    ["posSector", "missionBriefing", "sectorHistory", "threatUnderstanding", "appearance", "effort", "drills", "roe"]
  const TECH_KEYS: seq<string> := ["systems", "communication"]
  const INTEL_KEYS: seq<string> := ["intelTools"]
  const MED_KEYS: seq<string> := ["medical"]

  /** The twelve ratings the score reads. */
  function AllKeys(): seq<string> { OP_KEYS + TECH_KEYS + INTEL_KEYS + MED_KEYS }

  datatype Scores = Scores(
    overallAvg5: real,
    overall100: int,
    operational100: Option<int>,
    tech100: Option<int>,
    intel100: Option<int>,
    medical100: Option<int>)

  /** A group average, 0 when the group has none. */
  function OrZero(x: Option<real>): real {
    if x.Some? then x.value else 0.0
  }

  /** The fixed-weight sum; a missing group contributes 0 and the weights are not renormalised. */
  function Weighted(op: Option<real>, tech: Option<real>, intel: Option<real>, med: Option<real>): real {
    OrZero(op) * 0.8 + OrZero(tech) * 0.1 + OrZero(intel) * 0.05 + OrZero(med) * 0.05
  }

  /** `computeScores(audit)` */
  function ComputeScores(audit: Value): (r: Option<Scores>)
    ensures r.None? <==> !Truthy(audit)
  {
    if !Truthy(audit) then None
    else
      var op := Ratings.Avg(Fields(audit, OP_KEYS));
      var tech := Ratings.Avg(Fields(audit, TECH_KEYS));
      var intel := Ratings.Avg(Fields(audit, INTEL_KEYS));
      var med := Ratings.Avg(Fields(audit, MED_KEYS));
      var w := Weighted(op, tech, intel, med);
      Some(Scores(
        Ratings.OneDecimal(w),
        To100(Some(w)).value,
        To100(op), To100(tech), To100(intel), To100(med)))
  }

  /** Every rating of the group has the value `v`. */
  predicate AllRated(audit: Value, keys: seq<string>, v: real) {
    forall i :: 0 <= i < |keys| ==> Get(audit, keys[i]) == Number(Finite(v))
  }

  /** No rating of the group is eligible. */
  predicate NoneRated(audit: Value, keys: seq<string>) {
    forall i :: 0 <= i < |keys| ==> !Ratings.Eligible(Get(audit, keys[i]))
  }

  lemma GroupOfConstant(audit: Value, keys: seq<string>, v: real)
    requires keys != [] && v > 0.0 && AllRated(audit, keys, v)
    ensures Ratings.Avg(Fields(audit, keys)) == Some(v)
  {
    Ratings.AvgOfConstant(Fields(audit, keys), v);
  }

  lemma GroupUnrated(audit: Value, keys: seq<string>)
    requires NoneRated(audit, keys)
    ensures Ratings.Avg(Fields(audit, keys)) == None
  {
  }

  /** When all twelve ratings share one value `v`, every score is that value
      on its scale: the four weights add up to 1. */
  lemma UniformRatings(audit: Value, v: real)
    requires Truthy(audit) && v > 0.0
    requires AllRated(audit, OP_KEYS, v) && AllRated(audit, TECH_KEYS, v)
    requires AllRated(audit, INTEL_KEYS, v) && AllRated(audit, MED_KEYS, v)
    ensures ComputeScores(audit).Some?
    ensures ComputeScores(audit).value.overall100 == Round(v * 20.0)
    ensures ComputeScores(audit).value.overallAvg5 == Ratings.OneDecimal(v)
    ensures ComputeScores(audit).value.operational100 == Some(Round(v * 20.0))
    ensures ComputeScores(audit).value.tech100 == Some(Round(v * 20.0))
    ensures ComputeScores(audit).value.intel100 == Some(Round(v * 20.0))
    ensures ComputeScores(audit).value.medical100 == Some(Round(v * 20.0))
  {
    GroupOfConstant(audit, OP_KEYS, v);
    GroupOfConstant(audit, TECH_KEYS, v);
    GroupOfConstant(audit, INTEL_KEYS, v);
    GroupOfConstant(audit, MED_KEYS, v);
    assert Weighted(Some(v), Some(v), Some(v), Some(v)) == v;
    assert v / 5.0 * 100.0 == v * 20.0;
  }

  /** All ratings 5 score 100; all ratings 4 score 80. */
  lemma AllFivesAndFours(audit: Value, v: real)
    requires Truthy(audit) && (v == 5.0 || v == 4.0)
    requires AllRated(audit, OP_KEYS, v) && AllRated(audit, TECH_KEYS, v)
    requires AllRated(audit, INTEL_KEYS, v) && AllRated(audit, MED_KEYS, v)
    ensures ComputeScores(audit).Some?
    ensures v == 5.0 ==> ComputeScores(audit).value.overall100 == 100 && ComputeScores(audit).value.overallAvg5 == 5.0
    ensures v == 4.0 ==> ComputeScores(audit).value.overall100 == 80 && ComputeScores(audit).value.overallAvg5 == 4.0
  {
    UniformRatings(audit, v);
    RoundOfInt(100);
    RoundOfInt(80);
    RoundOfInt(50);
    RoundOfInt(40);
  }

  /** With no eligible rating at all the four group scores are null, while
      the overall values are 0 rather than null. */
  lemma NoRatings(audit: Value)
    requires Truthy(audit)
    requires NoneRated(audit, OP_KEYS) && NoneRated(audit, TECH_KEYS)
    requires NoneRated(audit, INTEL_KEYS) && NoneRated(audit, MED_KEYS)
    ensures ComputeScores(audit) == Some(Scores(0.0, 0, None, None, None, None))
  {
    GroupUnrated(audit, OP_KEYS);
    GroupUnrated(audit, TECH_KEYS);
    GroupUnrated(audit, INTEL_KEYS);
    GroupUnrated(audit, MED_KEYS);
    assert Weighted(None, None, None, None) == 0.0;
    RoundOfInt(0);
  }

  /** Missing groups count as 0 instead of being left out of the weighting:
      perfect operational ratings alone give 80, not 100. */
  lemma MissingGroupsCountZero(audit: Value, v: real)
    requires Truthy(audit) && v > 0.0
    requires AllRated(audit, OP_KEYS, v)
    requires NoneRated(audit, TECH_KEYS) && NoneRated(audit, INTEL_KEYS) && NoneRated(audit, MED_KEYS)
    ensures ComputeScores(audit).Some?
    ensures ComputeScores(audit).value.overall100 == Round(v * 16.0)
    ensures ComputeScores(audit).value.operational100 == Some(Round(v * 20.0))
    ensures v == 5.0 ==> ComputeScores(audit).value.overall100 == 80
  {
    GroupOfConstant(audit, OP_KEYS, v);
    GroupUnrated(audit, TECH_KEYS);
    GroupUnrated(audit, INTEL_KEYS);
    GroupUnrated(audit, MED_KEYS);
    assert Weighted(Some(v), None, None, None) == v * 0.8;
    assert v * 0.8 / 5.0 * 100.0 == v * 16.0;
    RoundOfInt(80);
  }

  /** The operational score reads only the eight operational ratings. */
  lemma OperationalReadsOnlyOp(a1: Value, a2: Value)
    requires Truthy(a1) && Truthy(a2)
    requires forall i :: 0 <= i < |OP_KEYS| ==> Get(a1, OP_KEYS[i]) == Get(a2, OP_KEYS[i])
    ensures ComputeScores(a1).value.operational100 == ComputeScores(a2).value.operational100
  {
    assert Fields(a1, OP_KEYS) == Fields(a2, OP_KEYS);
  }

  /** Every rating at most 5 keeps every score on its scale. */
  lemma ScoresInRange(audit: Value)
    requires Truthy(audit)
    requires forall i :: 0 <= i < |AllKeys()| && Ratings.Eligible(Get(audit, AllKeys()[i])) ==>
               Ratings.NumberValue(Get(audit, AllKeys()[i])) <= 5.0
    ensures 0 <= ComputeScores(audit).value.overall100 <= 100
    ensures 0.0 <= ComputeScores(audit).value.overallAvg5 <= 5.0
    ensures ComputeScores(audit).value.operational100.Some? ==> 0 <= ComputeScores(audit).value.operational100.value <= 100
  {
    var op := GroupInRange(audit, OP_KEYS, 0);
    var tech := GroupInRange(audit, TECH_KEYS, |OP_KEYS|);
    var intel := GroupInRange(audit, INTEL_KEYS, |OP_KEYS| + |TECH_KEYS|);
    var med := GroupInRange(audit, MED_KEYS, |OP_KEYS| + |TECH_KEYS| + |INTEL_KEYS|);
    WeightedRange(op, tech, intel, med);
    var w := Weighted(op, tech, intel, med);
    var r := ComputeScores(audit).value;
    assert r.overallAvg5 == Ratings.OneDecimal(w) && r.overall100 == To100(Some(w)).value;
    To100Range(w);
    Ratings.OneDecimalRange(w, 5);
    if op.Some? { To100Range(op.value); }
  }

  lemma WeightedRange(op: Option<real>, tech: Option<real>, intel: Option<real>, med: Option<real>)
    requires 0.0 <= OrZero(op) <= 5.0 && 0.0 <= OrZero(tech) <= 5.0
    requires 0.0 <= OrZero(intel) <= 5.0 && 0.0 <= OrZero(med) <= 5.0
    ensures 0.0 <= Weighted(op, tech, intel, med) <= 5.0
  {
  }

  /** A group whose ratings sit at offset `at` of the twelve averages into [0, 5] when present. */
  lemma GroupInRange(audit: Value, keys: seq<string>, at: nat) returns (g: Option<real>)
    requires at + |keys| <= |AllKeys()| && AllKeys()[at..at + |keys|] == keys
    requires forall i :: 0 <= i < |AllKeys()| && Ratings.Eligible(Get(audit, AllKeys()[i])) ==>
               Ratings.NumberValue(Get(audit, AllKeys()[i])) <= 5.0
    ensures g == Ratings.Avg(Fields(audit, keys))
    ensures 0.0 <= OrZero(g) <= 5.0
  {
    g := Ratings.Avg(Fields(audit, keys));
    forall i | 0 <= i < |keys| && Ratings.Eligible(Fields(audit, keys)[i])
      ensures 0.0 <= Ratings.NumberValue(Fields(audit, keys)[i]) <= 5.0
    {
      assert keys[i] == AllKeys()[at + i];
    }
    Ratings.AvgBounds(Fields(audit, keys), 0.0, 5.0);
  }

  /* ---------- the score column ---------- */

  /** An audit record that carries its ratings. */
  predicate IsScoredAudit(d: Value) {
    Get(d, "type") == Str(AUDIT_TYPE) && Truthy(Get(d, "audit"))
  }

  /** `getOverallScoreDisplay(doc)`: "—" unless the record is an audit with
      ratings; then the stored score's `overall100` (or "—" when the stored
      score has none), else the score computed from the ratings. */
  function GetOverallScoreDisplay(doc: Value): (r: Value)
    ensures !IsScoredAudit(Or(doc, Object(map[]))) ==> r == Str(DASH)
  {
    var d := Or(doc, Object(map[]));
    if Get(d, "type") != Str(AUDIT_TYPE) || !Truthy(Get(d, "audit")) then Str(DASH)
    else
      var stored := Get(d, "score");
      if Truthy(stored) then Coalesce(Get(stored, "overall100"), Str(DASH))
      else Number(Finite(ComputeScores(Get(d, "audit")).value.overall100 as real))
  }

  /** A stored score wins over the ratings: an audit record with a truthy
      stored score displays that score's `overall100` ("—" when it has none),
      whatever its ratings, so two such records that share a stored score
      display alike. */
  lemma DisplayPrefersStored(doc: Value, other: Value)
    requires IsScoredAudit(Or(doc, Object(map[])))
    requires Truthy(Get(Or(doc, Object(map[])), "score"))
    requires IsScoredAudit(Or(other, Object(map[])))
    requires Get(Or(other, Object(map[])), "score") == Get(Or(doc, Object(map[])), "score")
    ensures GetOverallScoreDisplay(doc) == Coalesce(Get(Get(Or(doc, Object(map[])), "score"), "overall100"), Str(DASH))
    ensures GetOverallScoreDisplay(other) == GetOverallScoreDisplay(doc)
  {
  }

  /** Without a stored score the display of an audit record is its
      computed overall score, whatever the ratings hold. */
  lemma DisplayComputed(doc: Value)
    requires IsScoredAudit(Or(doc, Object(map[]))) && !Truthy(Get(Or(doc, Object(map[])), "score"))
    ensures GetOverallScoreDisplay(doc) ==
              Number(Finite(ComputeScores(Get(Or(doc, Object(map[])), "audit")).value.overall100 as real))
  {
  }

  /** With ratings of at most 5, that computed display is a number in 0..100. */
  lemma DisplayComputedRange(d: Value)
    requires d.Object? && IsScoredAudit(d) && !Truthy(Get(d, "score"))
    requires forall i :: 0 <= i < |AllKeys()| && Ratings.Eligible(Get(Get(d, "audit"), AllKeys()[i])) ==>
               Ratings.NumberValue(Get(Get(d, "audit"), AllKeys()[i])) <= 5.0
    ensures GetOverallScoreDisplay(d).Number?
    ensures 0.0 <= GetOverallScoreDisplay(d).n.r <= 100.0
  {
    DisplayComputed(d);
    ScoresInRange(Get(d, "audit"));
  }

  /* ---------- the keep/improve parser ---------- */

  /** `p` without one trailing carriage return. */
  function DropCR(p: string): (r: string)
    ensures r == p || (p == r + "\r")
  {
    if p != [] && p[|p| - 1] == '\r' then p[..|p| - 1] else p
  }

  /** `text.split(/\r?\n/)`: the pieces between line feeds, each without the
      carriage return that precedes its line feed. */
  function SplitLines(text: string): (r: seq<string>)
    ensures r != []
    decreases |text|
  {
    var k := FirstIndex(text, '\n');
    if k == |text| then [text] else [DropCR(text[..k])] + SplitLines(text[k + 1..])
  }

  /** `.map(s => s.trim())` */
  function TrimAll(xs: seq<string>): (r: seq<string>)
    ensures |r| == |xs|
    ensures forall i :: 0 <= i < |xs| ==> r[i] == Trim(xs[i])
  {
    seq(|xs|, i requires 0 <= i < |xs| => Trim(xs[i]))
  }

  /** `.filter(Boolean)` */
  function NonEmpty(xs: seq<string>): (r: seq<string>)
    ensures |r| <= |xs|
    ensures forall i :: 0 <= i < |r| ==> r[i] != "" && r[i] in xs
  {
    if xs == [] then []
    else if xs[0] == "" then NonEmpty(xs[1..])
    else [xs[0]] + NonEmpty(xs[1..])
  }

  /** `.slice(0, n)` */
  function Take(xs: seq<string>, n: nat): (r: seq<string>)
    ensures |r| <= n && |r| <= |xs| && r == xs[..|r|]
    ensures |xs| <= n ==> r == xs
  {
    if |xs| <= n then xs else xs[..n]
  }

  const MAX_LINES: nat := 20

  /** The keep/improve list saved from a text area. */
  function ParseLines(text: string): (r: seq<string>)
    ensures |r| <= MAX_LINES
  {
    Take(NonEmpty(TrimAll(SplitLines(text))), MAX_LINES)
  }

  predicate NoLineFeed(x: string) {
    forall i :: 0 <= i < |x| ==> x[i] != '\n'
  }

  /** A line, as a saved list item: non-empty, trimmed, on one line. */
  predicate IsItem(x: string) {
    x != "" && IsTrimmed(x) && NoLineFeed(x)
  }

  lemma TrimmedWithin(s: string, c: char)
    requires forall i :: 0 <= i < |s| ==> s[i] != c
    ensures forall i :: 0 <= i < |Trim(s)| ==> Trim(s)[i] != c
  {
    var t := TrimStart(s);
    TrimStartSuffix(s);
    forall i | 0 <= i < |t| ensures t[i] != c {
      assert t[i] == s[|s| - |t| + i];
    }
    var r := TrimEnd(t);
    TrimUnfold(s);
    forall i | 0 <= i < |r| ensures r[i] != c {
      assert r[i] == t[i];
    }
  }

  lemma {:induction false} SplitLinesNoLineFeed(text: string)
    ensures forall i :: 0 <= i < |SplitLines(text)| ==> NoLineFeed(SplitLines(text)[i])
    decreases |text|
  {
    var k := FirstIndex(text, '\n');
    if k < |text| {
      SplitLinesNoLineFeed(text[k + 1..]);
      var p := text[..k];
      assert NoLineFeed(p);
      assert NoLineFeed(DropCR(p)) by {
        if DropCR(p) != p { assert DropCR(p) == p[..|p| - 1]; }
      }
    }
  }

  /** Every saved item is non-empty, trimmed and on one line. */
  lemma ParseLinesItems(text: string)
    ensures forall i :: 0 <= i < |ParseLines(text)| ==> IsItem(ParseLines(text)[i])
  {
    var pieces := SplitLines(text);
    SplitLinesNoLineFeed(text);
    forall i | 0 <= i < |pieces| ensures NoLineFeed(TrimAll(pieces)[i]) {
      TrimmedWithin(pieces[i], '\n');
    }
    var r := ParseLines(text);
    var ne := NonEmpty(TrimAll(pieces));
    forall i | 0 <= i < |r| ensures IsItem(r[i]) {
      assert r[i] == ne[i];
      assert r[i] in TrimAll(pieces);
    }
  }

  lemma TrimDropsLast(s: string, c: char)
    requires IsWhitespace(c)
    ensures Trim(s + [c]) == Trim(s)
  {
    TrimUnfold(s);
    TrimUnfold(s + [c]);
    if forall i :: 0 <= i < |s| ==> IsWhitespace(s[i]) {
      assert forall i :: 0 <= i < |s + [c]| ==> IsWhitespace((s + [c])[i]);
    } else {
      var j :| 0 <= j < |s| && !IsWhitespace(s[j]);
      var t := TrimStart(s);
      assert TrimStart(s + [c]) == t + [c] by {
        TrimStartSolidAppend(s, c, j);
      }
      TrimEndDropsLast(t, c);
    }
  }

  lemma TrimEndDropsLast(t: string, c: char)
    requires IsWhitespace(c)
    ensures TrimEnd(t + [c]) == TrimEnd(t)
  {
    assert (t + [c])[..|t + [c]| - 1] == t;
  }

  lemma {:induction false} TrimStartSolidAppend(s: string, c: char, j: nat)
    requires j < |s| && !IsWhitespace(s[j])
    ensures TrimStart(s + [c]) == TrimStart(s) + [c]
  {
    if IsWhitespace(s[0]) {
      assert (s + [c])[1..] == s[1..] + [c];
      TrimStartSolidAppend(s[1..], c, j - 1);
    }
  }

  /** The first piece of `x + sep + rest` trims to `x` trimmed. */
  lemma SplitLinesCons(x: string, sep: string, rest: string)
    requires sep == "\n" || sep == "\r\n"
    requires NoLineFeed(x)
    ensures |SplitLines(x + sep + rest)| >= 1
    ensures Trim(SplitLines(x + sep + rest)[0]) == Trim(x)
    ensures SplitLines(x + sep + rest)[1..] == SplitLines(rest)
  {
    var s := x + sep + rest;
    var k := |x| + |sep| - 1;
    assert s[k] == '\n';
    assert forall i :: 0 <= i < k ==> s[i] != '\n';
    assert FirstIndex(s, '\n') == k;
    assert s[k + 1..] == rest;
    if sep == "\n" {
      assert s[..k] == x;
      if DropCR(x) != x { TrimDropsLast(DropCR(x), '\r'); }
    } else {
      assert s[..k] == x + "\r";
      assert DropCR(x + "\r") == x;
    }
  }

  lemma SplitLinesSingle(x: string)
    requires NoLineFeed(x)
    ensures SplitLines(x) == [x]
  {
    assert FirstIndex(x, '\n') == |x|;
  }

  /** Splitting lines joined by `sep` gives the lines back, up to trimming. */
  lemma {:induction false} SplitJoined(xs: seq<string>, sep: string)
    requires sep == "\n" || sep == "\r\n"
    requires xs != [] && forall i :: 0 <= i < |xs| ==> NoLineFeed(xs[i])
    ensures TrimAll(SplitLines(Join(xs, sep))) == TrimAll(xs)
  {
    if |xs| == 1 {
      SplitLinesSingle(xs[0]);
    } else {
      SplitJoined(xs[1..], sep);
      SplitJoinedStep(xs, sep);
    }
  }

  lemma SplitJoinedStep(xs: seq<string>, sep: string)
    requires sep == "\n" || sep == "\r\n"
    requires |xs| >= 2 && forall i :: 0 <= i < |xs| ==> NoLineFeed(xs[i])
    requires TrimAll(SplitLines(Join(xs[1..], sep))) == TrimAll(xs[1..])
    ensures TrimAll(SplitLines(Join(xs, sep))) == TrimAll(xs)
  {
    var p := FirstPieceOfJoin(xs, sep);
    var rest := SplitLines(Join(xs[1..], sep));
    TrimAllCons(p, rest);
    TrimAllHead(xs);
  }

  lemma TrimAllHead(xs: seq<string>)
    requires xs != []
    ensures TrimAll(xs) == [Trim(xs[0])] + TrimAll(xs[1..])
  {
    assert xs == [xs[0]] + xs[1..];
    TrimAllCons(xs[0], xs[1..]);
  }

  /** The lines of a join: the first line's piece, then the lines of the rest. */
  lemma FirstPieceOfJoin(xs: seq<string>, sep: string) returns (p: string)
    requires sep == "\n" || sep == "\r\n"
    requires |xs| >= 2 && NoLineFeed(xs[0])
    ensures SplitLines(Join(xs, sep)) == [p] + SplitLines(Join(xs[1..], sep))
    ensures Trim(p) == Trim(xs[0])
  {
    var rest := Join(xs[1..], sep);
    assert Join(xs, sep) == xs[0] + sep + rest;
    SplitLinesCons(xs[0], sep, rest);
    var pieces := SplitLines(Join(xs, sep));
    p := pieces[0];
    assert pieces == [p] + pieces[1..];
  }

  lemma TrimAllCons(x: string, xs: seq<string>)
    ensures TrimAll([x] + xs) == [Trim(x)] + TrimAll(xs)
  {
  }

  lemma {:induction false} NonEmptyOfItems(xs: seq<string>)
    requires forall i :: 0 <= i < |xs| ==> xs[i] != ""
    ensures NonEmpty(xs) == xs
  {
    if xs != [] { NonEmptyOfItems(xs[1..]); }
  }

  lemma TrimAllOfItems(xs: seq<string>)
    requires forall i :: 0 <= i < |xs| ==> IsItem(xs[i])
    ensures TrimAll(xs) == xs
  {
    forall i | 0 <= i < |xs| ensures Trim(xs[i]) == xs[i] { TrimOfTrimmed(xs[i]); }
  }

  /** Lines written one per row, with `\n` or `\r\n` endings, are read back
      trimmed, without the blank ones, in order, and at most twenty of them. */
  lemma ParseJoined(xs: seq<string>, sep: string)
    requires sep == "\n" || sep == "\r\n"
    requires forall i :: 0 <= i < |xs| ==> NoLineFeed(xs[i])
    ensures ParseLines(Join(xs, sep)) == Take(NonEmpty(TrimAll(xs)), MAX_LINES)
  {
    if xs == [] {
      SplitLinesSingle("");
      assert TrimAll([""]) == [""];
    } else {
      SplitJoined(xs, sep);
    }
  }

  /** A list of items survives being written out and read back, when it has at most twenty. */
  lemma ParseLinesRoundTrip(xs: seq<string>)
    requires |xs| <= MAX_LINES
    requires forall i :: 0 <= i < |xs| ==> IsItem(xs[i])
    ensures ParseLines(Join(xs, "\n")) == xs
  {
    ParseJoined(xs, "\n");
    TrimAllOfItems(xs);
    NonEmptyOfItems(xs);
  }

  /** Saving the list the form shows again changes nothing. */
  lemma ParseLinesIdempotent(text: string)
    ensures ParseLines(Join(ParseLines(text), "\n")) == ParseLines(text)
  {
    ParseLinesItems(text);
    ParseLinesRoundTrip(ParseLines(text));
  }

  /* ---------- the save payload ---------- */

  /** The edit form's inputs, `(get(id)?.value || "")`. */
  datatype EditForm = EditForm(
    dt: string, name: string, role: string, sector: string, force: string,
    keep: string, improve: string, gaps: string, notes: string, exDesc: string)

  /** The fields the save handler writes. The two optional fields are only
      written when present. */
  datatype Payload = Payload(
    name: string, role: string, sector: string, force: string,
    gaps: string, notes: string, keep: seq<string>, improve: seq<string>,
    eventAt: Option<Time>, exerciseDescription: Option<string>)

  /** The edited event time: the trimmed input when it is non-empty and parses. */
  function EditedEventAt(form: EditForm, parse: DateParser): (t: Option<Time>)
    ensures Trim(form.dt) == "" ==> t == None
    ensures Trim(form.dt) != "" ==> t == parse(Trim(form.dt))
  {
    ToDateMaybe(Str(Trim(form.dt)), parse)
  }

  /** The save handler's payload: the trimmed fields, the two parsed lists,
      `eventAt` only when the date input parses, and `exerciseDescription`
      only when the record is not an audit. */
  method BuildPayload(form: EditForm, rowType: Value, parse: DateParser) returns (payload: Payload)
    ensures payload.name == Trim(form.name) && payload.role == Trim(form.role)
    ensures payload.sector == Trim(form.sector) && payload.force == Trim(form.force)
    ensures payload.gaps == Trim(form.gaps) && payload.notes == Trim(form.notes)
    ensures payload.keep == ParseLines(form.keep) && payload.improve == ParseLines(form.improve)
    ensures payload.eventAt == EditedEventAt(form, parse)
    ensures payload.exerciseDescription.Some? <==> rowType != Str(AUDIT_TYPE)
    ensures payload.exerciseDescription.Some? ==> payload.exerciseDescription.value == Trim(form.exDesc)
  {
    var dtRaw := Trim(form.dt);
    var eventAt: Option<Time> := None;
    if dtRaw != "" {
      var d := parse(dtRaw);
      if d.Some? { eventAt := Some(d.value); }
    }
    payload := Payload(
      Trim(form.name), Trim(form.role), Trim(form.sector), Trim(form.force),
      Trim(form.gaps), Trim(form.notes), ParseLines(form.keep), ParseLines(form.improve),
      None, None);
    if eventAt.Some? {
      payload := payload.(eventAt := eventAt);
    }
    if rowType != Str(AUDIT_TYPE) {
      payload := payload.(exerciseDescription := Some(Trim(form.exDesc)));
    }
  }
}
