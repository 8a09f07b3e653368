/** docs/js/dashboard.js: role normalisation, the practical-drill marker, the
    event date, and `aggregate`, which buckets records by sector and type and
    splits every count into the distinguished role (צמ"מ) and everyone else. */
module Dashboard {
  import opened Js
  import opened Dates
  import opened Schema
  import Strings

  const SECTORS: seq<string> := ["אלון מורה", "איתמר", "ברכה", "לב השומרון"]
  const DRILL_LABEL: string := "תרגול משימה"
  const TZMM: string := "צמ\"מ"
  const PRACTICAL: string := "מעשי"

  /* ---------- roles ---------- */

  /** The characters `/[״“”]/g` matches: Hebrew gershayim and the two curly double quotes. */
  predicate IsQuoteVariant(c: char) {
    c == '״' || c == '“' || c == '”'
  }

  function ReplaceQuotes(s: string): (r: string)
    ensures |r| == |s|
    ensures forall i :: 0 <= i < |s| ==> r[i] == (if IsQuoteVariant(s[i]) then '"' else s[i])
  {
    seq(|s|, i requires 0 <= i < |s| => if IsQuoteVariant(s[i]) then '"' else s[i])
  }

  /** A role string in canonical form: trimmed, every double quote plain. */
  predicate IsNormalRole(s: string) {
    IsTrimmed(s) && forall i :: 0 <= i < |s| ==> !IsQuoteVariant(s[i])
  }

  /** The string part of `normalizeRole`: trim, then unify the quotes. */
  function NormalizeText(s: string): (r: string)
    ensures IsNormalRole(r)
  {
    var t := Trim(s);
    ReplaceQuotesTrimmed(t);
    ReplaceQuotes(t)
  }

  /** Unifying the quotes of a trimmed string leaves it trimmed, since `"` is not white space. */
  lemma ReplaceQuotesTrimmed(t: string)
    requires IsTrimmed(t)
    ensures IsNormalRole(ReplaceQuotes(t))
  {
    var r := ReplaceQuotes(t);
    assert !IsWhitespace('"');
    if r != [] {
      assert r[0] == (if IsQuoteVariant(t[0]) then '"' else t[0]);
      assert r[|r| - 1] == (if IsQuoteVariant(t[|t| - 1]) then '"' else t[|t| - 1]);
    }
  }

  /** `normalizeRole(v)`: `String(v || "").trim()` with every quote variant replaced by `"`. */
  function NormalizeRole(v: Value): (r: string)
    ensures IsNormalRole(r)
    ensures !Truthy(v) ==> r == ""
    ensures v.Str? ==> r == NormalizeText(v.s)
  {
    NormalizeText(ToString(Or(v, Str(""))))
  }

  /** Normalising a normalised role changes nothing. */
  lemma NormalizeRoleIdempotent(v: Value)
    ensures NormalizeRole(Str(NormalizeRole(v))) == NormalizeRole(v)
  {
    var r := NormalizeRole(v);
    TrimOfTrimmed(r);
    ReplaceQuotesPlain(r);
  }

  lemma ReplaceQuotesPlain(s: string)
    requires forall i :: 0 <= i < |s| ==> !IsQuoteVariant(s[i])
    ensures ReplaceQuotes(s) == s
  {
  }

  /** Writing any quote variant, or the plain quote, at one position of a role
      gives the same normalised role. */
  lemma QuoteSpellingsAgree(a: string, b: string, q: char)
    requires IsQuoteVariant(q)
    ensures NormalizeText(a + [q] + b) == NormalizeText(a + ['"'] + b)
  {
    QuotesAreSolid(q);
    TrimAroundSolid(a, q, b);
    TrimAroundSolid(a, '"', b);
    ReplaceQuotesAround(TrimStart(a), q, TrimEnd(b));
    ReplaceQuotesAround(TrimStart(a), '"', TrimEnd(b));
  }

  lemma ReplaceQuotesAround(u: string, c: char, w: string)
    ensures ReplaceQuotes(u + [c] + w) ==
              ReplaceQuotes(u) + [if IsQuoteVariant(c) then '"' else c] + ReplaceQuotes(w)
  {
    var lhs := ReplaceQuotes(u + [c] + w);
    var rhs := ReplaceQuotes(u) + [if IsQuoteVariant(c) then '"' else c] + ReplaceQuotes(w);
    assert |lhs| == |rhs|;
    forall i | 0 <= i < |lhs| ensures lhs[i] == rhs[i] {
      if i < |u| {
        assert (u + [c] + w)[i] == u[i];
      } else if i > |u| {
        assert (u + [c] + w)[i] == w[i - |u| - 1];
      }
    }
  }

  lemma QuotesAreSolid(q: char)
    requires IsQuoteVariant(q)
    ensures !IsWhitespace(q) && !IsWhitespace('"')
  {
  }

  /** The three spellings of the distinguished role (צמ״מ, צמ“מ, צמ”מ) all
      classify as צמ"מ, with or without surrounding blanks. */
  lemma TzmmSpellings(q: char, pre: string, post: string)
    requires IsQuoteVariant(q) || q == '"'
    requires forall i :: 0 <= i < |pre| ==> IsWhitespace(pre[i])
    requires forall i :: 0 <= i < |post| ==> IsWhitespace(post[i])
    ensures NormalizeText(pre + "צמ" + [q] + "מ" + post) == TZMM
  {
    var core := "צמ" + [q] + "מ";
    assert pre + "צמ" + [q] + "מ" + post == pre + core + post;
    TzmmCore(q);
    TrimBlanksAround(pre, core, post);
  }

  lemma TzmmCore(q: char)
    requires IsQuoteVariant(q) || q == '"'
    ensures var core := "צמ" + [q] + "מ"; core != [] && IsTrimmed(core) && ReplaceQuotes(core) == TZMM
  {
    var core := "צמ" + [q] + "מ";
    assert core[0] == 'צ' && core[|core| - 1] == 'מ';
    ReplaceQuotesAround("צמ", q, "מ");
    ReplaceQuotesPlain("צמ");
    ReplaceQuotesPlain("מ");
    assert "צמ" + ['"'] + "מ" == TZMM;
  }

  /** `readRole(data)`: the root `role` when truthy, otherwise `meta.role`. */
  function ReadRole(d: Value): (r: string)
    ensures IsNormalRole(r)
    ensures Truthy(Get(d, "role")) ==> r == NormalizeRole(Get(d, "role"))
    ensures !Truthy(Get(d, "role")) ==> r == NormalizeRole(GetPath(d, ["meta", "role"]))
  {
    NormalizeRole(Or(Get(d, "role"), GetPath(d, ["meta", "role"])))
  }

  /** Old records keep the role at the root, new ones under `meta`: the same
      value in either place reads as the same role. */
  lemma RoleLayoutsAgree(v: Value)
    ensures ReadRole(Object(map["role" := v])) == ReadRole(Object(map["meta" := Object(map["role" := v])]))
  {
    var old_ := Object(map["role" := v]);
    var new_ := Object(map["meta" := Object(map["role" := v])]);
    assert GetPath(old_, ["meta", "role"]) == Undefined;
    assert Get(new_, "role") == Undefined;
    assert GetPath(new_, ["meta", "role"]) == v;
  }

  /* ---------- the practical-drill marker ---------- */

  /** The five places the training kind has been stored, in priority order. */
  function DrillLocations(d: Value): (vs: seq<Value>)
    ensures |vs| == 5
  {
    [ GetPath(d, ["sections", "training", "kind"]),
      GetPath(d, ["sections", "forceTraining", "kind"]),
      GetPath(d, ["meta", "trainingKind"]),
      Get(d, "trainingKind"),
      Get(d, "forceTrainingType") ]
  }

  /** `vs[0] || vs[1] || ...`: the first truthy value, or the last one. */
  function FirstTruthy(vs: seq<Value>): Value
    requires vs != []
  {
    if |vs| == 1 || Truthy(vs[0]) then vs[0] else FirstTruthy(vs[1..])
  }

  /** `isPracticalDrill(data)` */
  predicate IsPracticalDrill(d: Value) {
    Trim(ToString(Or(FirstTruthy(DrillLocations(d)), Str("")))) == PRACTICAL
  }

  lemma {:induction false} FirstTruthyAt(vs: seq<Value>, i: nat)
    requires i < |vs|
    requires Truthy(vs[i]) && forall j :: 0 <= j < i ==> !Truthy(vs[j])
    ensures FirstTruthy(vs) == vs[i]
  {
    if i > 0 {
      FirstTruthyAt(vs[1..], i - 1);
    }
  }

  lemma {:induction false} FirstTruthyNone(vs: seq<Value>)
    requires vs != []
    requires forall j :: 0 <= j < |vs| ==> !Truthy(vs[j])
    ensures !Truthy(FirstTruthy(vs))
  {
    if |vs| > 1 {
      FirstTruthyNone(vs[1..]);
    }
  }

  /** The first non-empty location decides, and masks every later one: the
      record is a practical drill iff that value, trimmed, is "מעשי". */
  lemma DrillMarkerDecides(d: Value, i: nat)
    requires i < 5
    requires Truthy(DrillLocations(d)[i])
    requires forall j :: 0 <= j < i ==> !Truthy(DrillLocations(d)[j])
    ensures IsPracticalDrill(d) <==> Trim(ToString(DrillLocations(d)[i])) == PRACTICAL
  {
    FirstTruthyAt(DrillLocations(d), i);
  }

  /** With all five locations empty the record is not a practical drill. */
  lemma NoDrillMarker(d: Value)
    requires forall j :: 0 <= j < 5 ==> !Truthy(DrillLocations(d)[j])
    ensures !IsPracticalDrill(d)
  {
    FirstTruthyNone(DrillLocations(d));
  }

  /* ---------- the event date ---------- */

  /** `getEventDate(d)`: the converted `eventAt`, else the converted `createdAt`. */
  function GetEventDate(d: Value, parse: DateParser): (r: Option<Time>)
    ensures ToDateMaybe(Get(d, "eventAt"), parse).Some? ==> r == ToDateMaybe(Get(d, "eventAt"), parse)
    ensures ToDateMaybe(Get(d, "eventAt"), parse).None? ==> r == ToDateMaybe(Get(d, "createdAt"), parse)
  {
    OrElse(ToDateMaybe(Get(d, "eventAt"), parse), ToDateMaybe(Get(d, "createdAt"), parse))
  }

  /** A record has an event date iff one of its two timestamp fields converts. */
  lemma EventDateExists(d: Value, parse: DateParser)
    ensures GetEventDate(d, parse).Some? <==>
              ToDateMaybe(Get(d, "eventAt"), parse).Some? || ToDateMaybe(Get(d, "createdAt"), parse).Some?
  {
  }

  /* ---------- aggregation ---------- */

  /** The options of `aggregate`: `toDateEnd` absent means no upper bound,
      and an empty `typeFilter` means no type filter. */
  datatype Filter = Filter(fromDate: Time, toDateEnd: Option<Time>, typeFilter: string)

  datatype Split = Split(tzmm: nat, other: nat)
  datatype SectorBucket = SectorBucket(byType: map<string, Split>, totals: Split)
  datatype Aggregation = Aggregation(bySector: map<string, SectorBucket>, types: seq<string>, kept: nat)

  /** What one kept record contributes: its sector, its type label, its role
      class, and whether it is an audit that was also a practical drill. */
  datatype Entry = Entry(sector: string, baseType: string, tzmm: bool, drill: bool)

  predicate WellFormed(e: Entry) {
    e.sector in SECTORS && (e.drill ==> e.baseType == AUDIT_TYPE)
  }

  function SectorSet(): set<string> {
    set s | s in SECTORS
  }

  /** The record's `meta.sector`, or "" when that is missing or falsy (docs/js/dashboard.js:97). */
  function SectorOf(d: Value): Value {
    Or(GetPath(d, ["meta", "sector"]), Str(""))
  }

  /** The record's `type`, or the unknown label when that is missing or falsy (docs/js/dashboard.js:100). */
  function BaseTypeOf(d: Value): Value {
    Or(Get(d, "type"), Str(UNKNOWN))
  }

  /** The tests of the loop that a record must pass to be counted. */
  predicate Kept(d: Value, f: Filter, parse: DateParser) {
    var ev := GetEventDate(d, parse);
    && ev.Some?
    && ev.value >= f.fromDate
    && !(f.toDateEnd.Some? && ev.value > f.toDateEnd.value)
    && SectorOf(d).Str? && SectorOf(d).s in SECTORS
    && !(f.typeFilter != "" && BaseTypeOf(d) != Str(f.typeFilter))
  }

  /** What a kept record counts as. */
  function EntryOf(d: Value): Entry
    requires SectorOf(d).Str?
  {
    var baseType := BaseTypeOf(d);
    Entry(SectorOf(d).s, ToString(baseType), ReadRole(d) == TZMM,
          baseType == Str(AUDIT_TYPE) && IsPracticalDrill(d))
  }

  /** The filter of the loop: `None` when the record is skipped, else what it counts as. */
  function Classify(d: Value, f: Filter, parse: DateParser): (r: Option<Entry>)
    ensures r.Some? ==> WellFormed(r.value)
  {
    if Kept(d, f, parse) then Some(EntryOf(d)) else None
  }

  /** Appending a record to the input leaves the counted entries, and so
      every bucket, the type labels and `kept`, as they were exactly when the
      record has no event date, its date is before `fromDate` or after a given
      `toDateEnd`, its sector is not one of the four (exact, untrimmed
      comparison), or a type filter is set and its type differs; any other
      record adds its own entry at the end. */
  lemma SkipRules(docs: seq<Value>, d: Value, f: Filter, parse: DateParser)
    ensures Entries(docs + [d], f, parse) == Entries(docs, f, parse) <==>
      || GetEventDate(d, parse).None?
      || GetEventDate(d, parse).value < f.fromDate
      || (f.toDateEnd.Some? && GetEventDate(d, parse).value > f.toDateEnd.value)
      || !(SectorOf(d).Str? && SectorOf(d).s in SECTORS)
      || (f.typeFilter != "" && BaseTypeOf(d) != Str(f.typeFilter))
    ensures Kept(d, f, parse) ==> Entries(docs + [d], f, parse) == Entries(docs, f, parse) + [EntryOf(d)]
  {
    assert (docs + [d])[..|docs|] == docs;
  }

  /** With a type filter, every kept record carries exactly that type. */
  lemma TypeFilterKeepsType(d: Value, f: Filter, parse: DateParser)
    requires f.typeFilter != "" && Classify(d, f, parse).Some?
    ensures Classify(d, f, parse).value.baseType == f.typeFilter
    ensures Classify(d, f, parse).value.drill ==> f.typeFilter == AUDIT_TYPE
  {
  }

  /** The contributions of the kept records, in input order. */
  function Entries(docs: seq<Value>, f: Filter, parse: DateParser): (es: seq<Entry>)
    ensures |es| <= |docs|
    ensures forall e :: e in es ==> WellFormed(e)
  {
    if docs == [] then []
    else
      var prefix := Entries(docs[..|docs| - 1], f, parse);
      match Classify(docs[|docs| - 1], f, parse)
      case Some(e) => prefix + [e]
      case None => prefix
  }

  lemma EntriesStep(docs: seq<Value>, i: nat, f: Filter, parse: DateParser)
    requires i < |docs|
    ensures Entries(docs[..i + 1], f, parse) ==
              Entries(docs[..i], f, parse) +
              (match Classify(docs[i], f, parse) case Some(e) => [e] case None => [])
  {
    assert docs[..i + 1][..i] == docs[..i];
  }

  /** The counters of the model, one kind per counter of the source. */
  datatype Query =
    | Cell(string, string, bool)
    | Drills(string, bool)
    | Totals(string, bool)

  predicate Matches(q: Query, e: Entry) {
    match q
    case Cell(s, t, tz) => e.sector == s && e.baseType == t && e.tzmm == tz
    case Drills(s, tz) => e.sector == s && e.drill && e.tzmm == tz
    case Totals(s, tz) => e.sector == s && e.tzmm == tz
  }

  function Count(es: seq<Entry>, q: Query): nat
  {
    if es == [] then 0 else Count(es[..|es| - 1], q) + (if Matches(q, es[|es| - 1]) then 1 else 0)
  }

  lemma CountAppend(es: seq<Entry>, e: Entry, q: Query)
    ensures Count(es + [e], q) == Count(es, q) + (if Matches(q, e) then 1 else 0)
  {
    assert (es + [e])[..|es|] == es;
  }

  lemma {:induction false} CountNone(es: seq<Entry>, q: Query)
    requires forall e :: e in es ==> !Matches(q, e)
    ensures Count(es, q) == 0
  {
    if es != [] {
      assert forall e :: e in es[..|es| - 1] ==> e in es;
      CountNone(es[..|es| - 1], q);
    }
  }

  /** The count a type label shows in a sector: its own records, plus, for
      the drill label, the audits that were also practical drills. */
  function LabelCount(es: seq<Entry>, s: string, t: string, tz: bool): nat {
    Count(es, Cell(s, t, tz)) + (if t == DRILL_LABEL then Count(es, Drills(s, tz)) else 0)
  }

  predicate HasDrill(es: seq<Entry>, s: string) {
    exists e :: e in es && e.sector == s && e.drill
  }

  /** The type labels that appear in a sector. */
  function LabelsIn(es: seq<Entry>, s: string): set<string> {
    (set e | e in es && e.sector == s :: e.baseType) + (if HasDrill(es, s) then {DRILL_LABEL} else {})
  }

  /** The type labels that appear anywhere: the base types and, if some audit
      was a practical drill, the drill label. */
  function AllLabels(es: seq<Entry>): set<string> {
    (set e | e in es :: e.baseType) + (if exists e :: e in es && e.drill then {DRILL_LABEL} else {})
  }

  /** What `bySector[s]` holds once the records `es` have been counted. */
  function ExpectedBucket(es: seq<Entry>, s: string): SectorBucket {
    SectorBucket(
      map t | t in LabelsIn(es, s) :: Split(LabelCount(es, s, t, true), LabelCount(es, s, t, false)),
      Split(Count(es, Totals(s, true)), Count(es, Totals(s, false))))
  }

  function Inc(c: Split, tz: bool): Split {
    if tz then c.(tzmm := c.tzmm + 1) else c.(other := c.other + 1)
  }

  function BumpLabel(m: map<string, Split>, t: string, tz: bool): map<string, Split> {
    m[t := Inc(if t in m then m[t] else Split(0, 0), tz)]
  }

  /** The bucket after one more record of its sector has been counted. */
  ghost function Counted(b: SectorBucket, e: Entry): SectorBucket {
    var m := BumpLabel(b.byType, e.baseType, e.tzmm);
    SectorBucket(if e.drill then BumpLabel(m, DRILL_LABEL, e.tzmm) else m, Inc(b.totals, e.tzmm))
  }

  lemma LabelCountAbsent(es: seq<Entry>, s: string, t: string, tz: bool)
    requires t !in LabelsIn(es, s)
    ensures LabelCount(es, s, t, tz) == 0
  {
    CountNone(es, Cell(s, t, tz));
    if t == DRILL_LABEL {
      CountNone(es, Drills(s, tz));
    }
  }

  /** `byType[t]`, with a label not yet seen reading as zero. */
  function At(m: map<string, Split>, t: string): Split {
    if t in m then m[t] else Split(0, 0)
  }

  /** How much one record adds to label `t` of its sector, for one role class. */
  function Hits(e: Entry, t: string, tz: bool): nat {
    (if e.baseType == t && e.tzmm == tz then 1 else 0) + (if t == DRILL_LABEL && e.drill && e.tzmm == tz then 1 else 0)
  }

  lemma LabelCountStep(es: seq<Entry>, e: Entry, s: string, t: string, tz: bool)
    ensures LabelCount(es + [e], s, t, tz) == LabelCount(es, s, t, tz) + (if e.sector == s then Hits(e, t, tz) else 0)
  {
    CountAppend(es, e, Cell(s, t, tz));
    CountAppend(es, e, Drills(s, tz));
  }

  lemma LabelsInStep(es: seq<Entry>, e: Entry, s: string)
    ensures LabelsIn(es + [e], s) ==
              LabelsIn(es, s) + (if e.sector == s then {e.baseType} + (if e.drill then {DRILL_LABEL} else {}) else {})
  {
    assert forall x :: x in es + [e] <==> x in es || x == e;
    assert HasDrill(es + [e], s) <==> HasDrill(es, s) || (e.sector == s && e.drill);
  }

  lemma ExpectedAt(es: seq<Entry>, s: string, t: string)
    ensures At(ExpectedBucket(es, s).byType, t) == Split(LabelCount(es, s, t, true), LabelCount(es, s, t, false))
  {
    if t !in LabelsIn(es, s) {
      LabelCountAbsent(es, s, t, true);
      LabelCountAbsent(es, s, t, false);
    }
  }

  lemma CountedAt(b: SectorBucket, e: Entry, t: string)
    ensures Counted(b, e).byType.Keys == b.byType.Keys + {e.baseType} + (if e.drill then {DRILL_LABEL} else {})
    ensures At(Counted(b, e).byType, t) ==
              Split(At(b.byType, t).tzmm + Hits(e, t, true), At(b.byType, t).other + Hits(e, t, false))
  {
  }

  /** Before any record is counted every bucket is empty. */
  lemma ExpectedBucketEmpty(s: string)
    ensures ExpectedBucket([], s) == SectorBucket(map[], Split(0, 0))
  {
    assert LabelsIn([], s) == {};
  }

  /** Counting one more record changes its own sector's bucket exactly as the
      loop body does, and no other sector's. */
  lemma ExpectedBucketStep(es: seq<Entry>, e: Entry, s: string)
    ensures s != e.sector ==> ExpectedBucket(es + [e], s) == ExpectedBucket(es, s)
    ensures s == e.sector ==> ExpectedBucket(es + [e], s) == Counted(ExpectedBucket(es, s), e)
  {
    CountAppend(es, e, Totals(s, true));
    CountAppend(es, e, Totals(s, false));
    LabelsInStep(es, e, s);
    if s != e.sector {
      OtherSectorByType(es, e, s);
    } else {
      OwnSectorByType(es, e);
    }
  }

  lemma OtherSectorByType(es: seq<Entry>, e: Entry, s: string)
    requires s != e.sector
    ensures ExpectedBucket(es + [e], s).byType == ExpectedBucket(es, s).byType
  {
    var m := ExpectedBucket(es, s).byType;
    var m' := ExpectedBucket(es + [e], s).byType;
    LabelsInStep(es, e, s);
    assert m'.Keys == m.Keys;
    forall t | t in m' ensures m'[t] == m[t] {
      LabelCountStep(es, e, s, t, true);
      LabelCountStep(es, e, s, t, false);
    }
  }

  lemma OwnSectorByType(es: seq<Entry>, e: Entry)
    ensures ExpectedBucket(es + [e], e.sector).byType == Counted(ExpectedBucket(es, e.sector), e).byType
  {
    var s := e.sector;
    var b := ExpectedBucket(es, s);
    var m' := ExpectedBucket(es + [e], s).byType;
    var c := Counted(b, e).byType;
    LabelsInStep(es, e, s);
    CountedAt(b, e, s);
    assert m'.Keys == c.Keys;
    forall t | t in m' ensures m'[t] == c[t] {
      OwnSectorLabel(es, e, t);
    }
  }

  lemma OwnSectorLabel(es: seq<Entry>, e: Entry, t: string)
    ensures At(ExpectedBucket(es + [e], e.sector).byType, t) == At(Counted(ExpectedBucket(es, e.sector), e).byType, t)
  {
    var s := e.sector;
    LabelCountStep(es, e, s, t, true);
    LabelCountStep(es, e, s, t, false);
    ExpectedAt(es, s, t);
    ExpectedAt(es + [e], s, t);
    CountedAt(ExpectedBucket(es, s), e, t);
  }

  /** The number of records counted in the listed sectors, both halves of each total. */
  function SumOfTotals(m: map<string, SectorBucket>, ss: seq<string>): nat {
    if ss == [] then 0
    else (if ss[0] in m then m[ss[0]].totals.tzmm + m[ss[0]].totals.other else 0) + SumOfTotals(m, ss[1..])
  }

  /** `byType[t].tzmm + byType[t].other`, 0 for a label the sector never saw. */
  function CellTotal(b: SectorBucket, t: string): nat {
    if t in b.byType then b.byType[t].tzmm + b.byType[t].other else 0
  }

  function SumOfCells(b: SectorBucket, ts: seq<string>): nat {
    if ts == [] then 0 else CellTotal(b, ts[0]) + SumOfCells(b, ts[1..])
  }

  function DrillCount(es: seq<Entry>, s: string): nat {
    Count(es, Drills(s, true)) + Count(es, Drills(s, false))
  }

  /** The number of records of the listed sectors. */
  function InSectors(es: seq<Entry>, ss: seq<string>): nat {
    if ss == [] then 0 else Count(es, Totals(ss[0], true)) + Count(es, Totals(ss[0], false)) + InSectors(es, ss[1..])
  }

  predicate Distinct(ss: seq<string>) {
    forall i, j :: 0 <= i < j < |ss| ==> ss[i] != ss[j]
  }

  lemma {:induction false} InSectorsAppend(es: seq<Entry>, e: Entry, ss: seq<string>)
    requires Distinct(ss)
    ensures InSectors(es + [e], ss) == InSectors(es, ss) + (if e.sector in ss then 1 else 0)
  {
    if ss != [] {
      CountAppend(es, e, Totals(ss[0], true));
      CountAppend(es, e, Totals(ss[0], false));
      InSectorsAppend(es, e, ss[1..]);
      assert e.sector in ss <==> e.sector == ss[0] || e.sector in ss[1..];
      assert e.sector == ss[0] ==> e.sector !in ss[1..];
    }
  }

  /** Every kept record lies in exactly one of the listed sectors, so the
      sector totals partition the kept records. */
  lemma {:induction false} TotalsPartitionKept(es: seq<Entry>, ss: seq<string>)
    requires Distinct(ss) && forall e :: e in es ==> e.sector in ss
    ensures InSectors(es, ss) == |es|
  {
    if es != [] {
      var init := es[..|es| - 1];
      var e := es[|es| - 1];
      assert es == init + [e];
      assert e in es;
      assert forall x :: x in init ==> x in es;
      TotalsPartitionKept(init, ss);
      InSectorsAppend(init, e, ss);
    } else {
      InSectorsNone(ss);
    }
  }

  lemma InSectorsNone(ss: seq<string>)
    ensures InSectors([], ss) == 0
  {
  }

  lemma SumOfLabelsNone(s: string, ts: seq<string>)
    ensures SumOfLabels([], s, ts) == 0
  {
  }

  lemma SumOfTotalsExpected(m: map<string, SectorBucket>, es: seq<Entry>, ss: seq<string>)
    requires forall s :: s in ss ==> s in m && m[s] == ExpectedBucket(es, s)
    ensures SumOfTotals(m, ss) == InSectors(es, ss)
  {
  }

  /** Sum of the label counts of a sector over a list of labels. */
  function SumOfLabels(es: seq<Entry>, s: string, ts: seq<string>): nat {
    if ts == [] then 0
    else LabelCount(es, s, ts[0], true) + LabelCount(es, s, ts[0], false) + SumOfLabels(es, s, ts[1..])
  }

  lemma {:induction false} SumOfLabelsAppend(es: seq<Entry>, e: Entry, s: string, ts: seq<string>)
    requires Distinct(ts) && WellFormed(e) && e.sector == s
    ensures SumOfLabels(es + [e], s, ts) ==
              SumOfLabels(es, s, ts) + (if e.baseType in ts then 1 else 0)
              + (if e.drill && DRILL_LABEL in ts then 1 else 0)
  {
    if ts != [] {
      var t := ts[0];
      forall tz | true ensures LabelCount(es + [e], s, t, tz) ==
          LabelCount(es, s, t, tz) + (if e.baseType == t && e.tzmm == tz then 1 else 0)
          + (if t == DRILL_LABEL && e.drill && e.tzmm == tz then 1 else 0) {
        CountAppend(es, e, Cell(s, t, tz));
        CountAppend(es, e, Drills(s, tz));
      }
      SumOfLabelsAppend(es, e, s, ts[1..]);
      assert e.baseType in ts <==> e.baseType == t || e.baseType in ts[1..];
      assert DRILL_LABEL in ts <==> DRILL_LABEL == t || DRILL_LABEL in ts[1..];
      assert t !in ts[1..];
    }
  }

  lemma {:induction false} SumOfLabelsOther(es: seq<Entry>, e: Entry, s: string, ts: seq<string>)
    requires e.sector != s
    ensures SumOfLabels(es + [e], s, ts) == SumOfLabels(es, s, ts)
  {
    if ts != [] {
      CountAppend(es, e, Cell(s, ts[0], true));
      CountAppend(es, e, Cell(s, ts[0], false));
      CountAppend(es, e, Drills(s, true));
      CountAppend(es, e, Drills(s, false));
      SumOfLabelsOther(es, e, s, ts[1..]);
    }
  }

  /** Within a sector, the label counts add up to the sector's totals plus its
      practical-drill audits: the drill label is the only double count. */
  lemma {:induction false} LabelsBalance(es: seq<Entry>, s: string, ts: seq<string>)
    requires forall e :: e in es ==> WellFormed(e)
    requires Distinct(ts) && forall t :: t in LabelsIn(es, s) ==> t in ts
    ensures SumOfLabels(es, s, ts) ==
              Count(es, Totals(s, true)) + Count(es, Totals(s, false)) + DrillCount(es, s)
  {
    if es != [] {
      var init := es[..|es| - 1];
      var e := es[|es| - 1];
      assert es == init + [e];
      assert forall x :: x in init ==> x in es;
      assert LabelsIn(init, s) <= LabelsIn(es, s) by {
        assert HasDrill(init, s) ==> HasDrill(es, s);
      }
      assert e in es;
      LabelsBalance(init, s, ts);
      CountAppend(init, e, Totals(s, true));
      CountAppend(init, e, Totals(s, false));
      CountAppend(init, e, Drills(s, true));
      CountAppend(init, e, Drills(s, false));
      if e.sector == s {
        SumOfLabelsAppend(init, e, s, ts);
        assert e.baseType in LabelsIn(es, s);
        assert e.drill ==> HasDrill(es, s) && DRILL_LABEL in LabelsIn(es, s);
      } else {
        SumOfLabelsOther(init, e, s, ts);
      }
    } else {
      SumOfLabelsNone(s, ts);
    }
  }

  lemma {:induction false} SumOfCellsExpected(es: seq<Entry>, s: string, ts: seq<string>)
    ensures SumOfCells(ExpectedBucket(es, s), ts) == SumOfLabels(es, s, ts)
  {
    if ts != [] {
      if ts[0] !in LabelsIn(es, s) {
        LabelCountAbsent(es, s, ts[0], true);
        LabelCountAbsent(es, s, ts[0], false);
      }
      SumOfCellsExpected(es, s, ts[1..]);
    }
  }

  lemma AllLabelsCoverSector(es: seq<Entry>, s: string)
    ensures LabelsIn(es, s) <= AllLabels(es)
  {
  }

  lemma SectorsDistinct()
    ensures Distinct(SECTORS)
  {
  }

  /** Counting a record into the sector map: its own sector's bucket is
      replaced by the counted one, so every bucket stays the expected one. */
  lemma AllBucketsStep(m: map<string, SectorBucket>, es: seq<Entry>, e: Entry)
    requires WellFormed(e) && m.Keys == SectorSet()
    requires forall s :: s in SectorSet() ==> m[s] == ExpectedBucket(es, s)
    ensures forall s :: s in SectorSet() ==> m[e.sector := Counted(m[e.sector], e)][s] == ExpectedBucket(es + [e], s)
  {
    forall s | s in SectorSet() ensures m[e.sector := Counted(m[e.sector], e)][s] == ExpectedBucket(es + [e], s) {
      ExpectedBucketStep(es, e, s);
    }
  }

  lemma AllLabelsStep(es: seq<Entry>, e: Entry)
    ensures AllLabels(es + [e]) == AllLabels(es) + {e.baseType} + (if e.drill then {DRILL_LABEL} else {})
  {
    assert forall x :: x in es + [e] <==> x in es || x == e;
  }

  /** The sector-map invariants of the loop give the two balances of the result. */
  lemma Balances(m: map<string, SectorBucket>, es: seq<Entry>, types: seq<string>)
    requires forall e :: e in es ==> WellFormed(e)
    requires m.Keys == SectorSet() && forall s :: s in SectorSet() ==> m[s] == ExpectedBucket(es, s)
    requires Strings.StrictlySorted(types) && forall t :: t in types <==> t in AllLabels(es)
    ensures SumOfTotals(m, SECTORS) == |es|
    ensures forall s :: s in SECTORS ==>
              SumOfCells(m[s], types) == m[s].totals.tzmm + m[s].totals.other + DrillCount(es, s)
  {
    SectorsDistinct();
    TotalsPartitionKept(es, SECTORS);
    SumOfTotalsExpected(m, es, SECTORS);
    assert Distinct(types) by {
      forall i, j | 0 <= i < j < |types| ensures types[i] != types[j] {
        Strings.StrictlySortedDistinct(types, i, j);
      }
    }
    forall s | s in SECTORS
      ensures SumOfCells(m[s], types) == m[s].totals.tzmm + m[s].totals.other + DrillCount(es, s)
    {
      AllLabelsCoverSector(es, s);
      LabelsBalance(es, s, types);
      SumOfCellsExpected(es, s, types);
    }
  }

  /** `byType[key] ||= {tzmm: 0, other: 0}` followed by the increment of the role's side. */
  method CountLabel(byType: map<string, Split>, key: string, isTzmm: bool) returns (m: map<string, Split>)
    ensures m == BumpLabel(byType, key, isTzmm)
  {
    m := byType;
    if key !in m {
      m := m[key := Split(0, 0)];
    }
    if isTzmm {
      m := m[key := m[key].(tzmm := m[key].tzmm + 1)];
    } else {
      m := m[key := m[key].(other := m[key].other + 1)];
    }
  }

  /** The counting half of the loop body: the record's base type, and for a
      practical-drill audit the drill label too, are counted into its
      sector's bucket and added to the type set. */
  method CountEntry(bySector: map<string, SectorBucket>, typesSet: set<string>, e: Entry)
    returns (bySector': map<string, SectorBucket>, typesSet': set<string>)
    requires e.sector in bySector
    ensures bySector' == bySector[e.sector := Counted(bySector[e.sector], e)]
    ensures typesSet' == typesSet + {e.baseType} + (if e.drill then {DRILL_LABEL} else {})
  {
    var bucket := bySector[e.sector];
    var byType := CountLabel(bucket.byType, e.baseType, e.tzmm);
    typesSet' := typesSet + {e.baseType};
    // an audit that was also a practical drill counts again as a mission drill
    if e.drill {
      byType := CountLabel(byType, DRILL_LABEL, e.tzmm);
      typesSet' := typesSet' + {DRILL_LABEL};
    }
    bySector' := bySector[e.sector := SectorBucket(byType, Inc(bucket.totals, e.tzmm))];
  }

  /** One pass of the loop of `aggregate`: the record is either skipped (the
      `continue`s) or counted. */
  method CountRecord(data: Value, f: Filter, parse: DateParser,
                     bySector: map<string, SectorBucket>, typesSet: set<string>)
    returns (bySector': map<string, SectorBucket>, typesSet': set<string>, counted: bool)
    requires bySector.Keys == SectorSet()
    ensures counted == Classify(data, f, parse).Some?
    ensures !counted ==> bySector' == bySector && typesSet' == typesSet
    ensures counted ==>
              var e := Classify(data, f, parse).value;
              && bySector' == bySector[e.sector := Counted(bySector[e.sector], e)]
              && typesSet' == typesSet + {e.baseType} + (if e.drill then {DRILL_LABEL} else {})
  {
    bySector', typesSet', counted := bySector, typesSet, false;
    var ev := GetEventDate(data, parse);
    if ev.None? { return; }
    if ev.value < f.fromDate { return; }
    if f.toDateEnd.Some? && ev.value > f.toDateEnd.value { return; }

    var sectorValue := SectorOf(data);
    if !(sectorValue.Str? && sectorValue.s in SECTORS) { return; }
    var sector := sectorValue.s;

    var baseTypeValue := BaseTypeOf(data);
    if f.typeFilter != "" && baseTypeValue != Str(f.typeFilter) { return; }
    var baseType := ToString(baseTypeValue);

    var isTzmm := ReadRole(data) == TZMM;
    var isDrill := baseTypeValue == Str(AUDIT_TYPE) && IsPracticalDrill(data);
    var e := Entry(sector, baseType, isTzmm, isDrill);
    assert Kept(data, f, parse) && EntryOf(data) == e;
    bySector', typesSet' := CountEntry(bySector, typesSet, e);
    counted := true;
  }

  /** The `bySector` object before the first record: an empty bucket per sector. */
  method EmptyBuckets() returns (bySector: map<string, SectorBucket>)
    ensures bySector.Keys == SectorSet()
    ensures forall s :: s in SectorSet() ==> bySector[s] == ExpectedBucket([], s)
  {
    bySector := map[];
    for k := 0 to |SECTORS|
      invariant bySector.Keys == set j | 0 <= j < k :: SECTORS[j]
      invariant forall s :: s in bySector ==> bySector[s] == SectorBucket(map[], Split(0, 0))
    {
      bySector := bySector[SECTORS[k] := SectorBucket(map[], Split(0, 0))];
    }
    assert (set j | 0 <= j < |SECTORS| :: SECTORS[j]) == SectorSet();
    forall s | s in SectorSet() ensures bySector[s] == ExpectedBucket([], s) {
      ExpectedBucketEmpty(s);
    }
  }

  /** The `docs.forEach` loop of `aggregate`: every counted record goes into
      its sector's bucket and adds its labels to the seen types. */
  method CountAll(docs: seq<Value>, f: Filter, parse: DateParser, init: map<string, SectorBucket>)
    returns (bySector: map<string, SectorBucket>, typesSet: set<string>, kept: nat)
    requires init.Keys == SectorSet()
    requires forall s :: s in SectorSet() ==> init[s] == ExpectedBucket([], s)
    ensures bySector.Keys == SectorSet()
    ensures forall s :: s in SectorSet() ==> bySector[s] == ExpectedBucket(Entries(docs, f, parse), s)
    ensures typesSet == AllLabels(Entries(docs, f, parse))
    ensures kept == |Entries(docs, f, parse)|
  {
    bySector, typesSet, kept := init, {}, 0;
    assert docs[..0] == [];
    for i := 0 to |docs|
      invariant bySector.Keys == SectorSet()
      invariant forall s :: s in SectorSet() ==> bySector[s] == ExpectedBucket(Entries(docs[..i], f, parse), s)
      invariant typesSet == AllLabels(Entries(docs[..i], f, parse))
      invariant kept == |Entries(docs[..i], f, parse)|
    {
      bySector, typesSet, kept := CountNext(docs, i, f, parse, bySector, typesSet, kept);
    }
    assert docs[..|docs|] == docs;
  }

  /** One turn of that loop: the state after `docs[..i]` becomes the state after `docs[..i + 1]`. */
  method CountNext(docs: seq<Value>, i: nat, f: Filter, parse: DateParser,
                   bySector: map<string, SectorBucket>, typesSet: set<string>, kept: nat)
    returns (bySector': map<string, SectorBucket>, typesSet': set<string>, kept': nat)
    requires i < |docs|
    requires bySector.Keys == SectorSet()
    requires forall s :: s in SectorSet() ==> bySector[s] == ExpectedBucket(Entries(docs[..i], f, parse), s)
    requires typesSet == AllLabels(Entries(docs[..i], f, parse))
    requires kept == |Entries(docs[..i], f, parse)|
    ensures bySector'.Keys == SectorSet()
    ensures forall s :: s in SectorSet() ==> bySector'[s] == ExpectedBucket(Entries(docs[..i + 1], f, parse), s)
    ensures typesSet' == AllLabels(Entries(docs[..i + 1], f, parse))
    ensures kept' == |Entries(docs[..i + 1], f, parse)|
  {
    ghost var es := Entries(docs[..i], f, parse);
    EntriesStep(docs, i, f, parse);
    var counted;
    bySector', typesSet', counted := CountRecord(docs[i], f, parse, bySector, typesSet);
    kept' := kept;
    if counted {
      kept' := kept + 1;
      ghost var e := Classify(docs[i], f, parse).value;
      assert Entries(docs[..i + 1], f, parse) == es + [e];
      AllBucketsStep(bySector, es, e);
      AllLabelsStep(es, e);
    } else {
      assert Entries(docs[..i + 1], f, parse) == es;
    }
  }

  /** `aggregate(docs, { fromDate, toDateEnd, typeFilter })` */
  method Aggregate(docs: seq<Value>, f: Filter, parse: DateParser) returns (r: Aggregation)
    ensures r.bySector.Keys == SectorSet()
    ensures forall s :: s in SECTORS ==> r.bySector[s] == ExpectedBucket(Entries(docs, f, parse), s)
    ensures docs == [] ==> forall s :: s in SECTORS ==> r.bySector[s] == SectorBucket(map[], Split(0, 0))
    ensures r.kept == |Entries(docs, f, parse)| && r.kept <= |docs|
    ensures Strings.StrictlySorted(r.types)
    ensures forall t :: t in r.types <==> t in AllLabels(Entries(docs, f, parse))
    ensures SumOfTotals(r.bySector, SECTORS) == r.kept
    ensures forall s :: s in SECTORS ==>
              SumOfCells(r.bySector[s], r.types) ==
              r.bySector[s].totals.tzmm + r.bySector[s].totals.other + DrillCount(Entries(docs, f, parse), s)
  {
    var bySector := EmptyBuckets();
    var typesSet, kept;
    bySector, typesSet, kept := CountAll(docs, f, parse, bySector);
    var types := Strings.SortedOf(typesSet);
    r := Aggregation(bySector, types, kept);
    Balances(bySector, Entries(docs, f, parse), types);
  }
}
