/** docs/js/dashboardV0.js: the first statistics page. The load handler
    filters the fetched records on the client (end date, sector, type, role)
    and counts the kept ones per group-by key; the counts are printed as a
    table sorted by count, and the three filter drop-downs are refilled
    from the fetched records. */
module DashboardV0 {
  import opened Js
  import opened Schema
  import opened Dates
  import opened Histogram
  import Strings

  /* ---------- renderTable ---------- */

  /** The text shown when there is nothing to list. */
  const NO_DATA: string := "אין נתונים"

  predicate NonIncreasing(c: Counts) {
    forall i, j :: 0 <= i < j < |c| ==> c[i].1 >= c[j].1
  }

  /** The entries whose count is `n`, in their order. */
  function WithCount(c: Counts, n: nat): Counts
  {
    if c == [] then [] else (if c[0].1 == n then [c[0]] else []) + WithCount(c[1..], n)
  }

  /** Inserting into a list sorted by count, after every entry that is not smaller. */
  function InsertDesc(e: (string, nat), s: Counts): (r: Counts)
    ensures |r| == |s| + 1
  {
    if s == [] then [e]
    else if s[0].1 >= e.1 then [s[0]] + InsertDesc(e, s[1..])
    else [e] + s
  }

  lemma {:induction false} InsertDescPermutes(e: (string, nat), s: Counts)
    ensures multiset(InsertDesc(e, s)) == multiset(s) + multiset{e}
  {
    if s != [] && s[0].1 >= e.1 {
      InsertDescPermutes(e, s[1..]);
      assert s == [s[0]] + s[1..];
    }
  }

  lemma {:induction false} InsertDescBounded(e: (string, nat), s: Counts, b: nat)
    requires e.1 <= b && forall i :: 0 <= i < |s| ==> s[i].1 <= b
    ensures forall i :: 0 <= i < |InsertDesc(e, s)| ==> InsertDesc(e, s)[i].1 <= b
  {
    if s != [] && s[0].1 >= e.1 {
      InsertDescBounded(e, s[1..], b);
      var rest := InsertDesc(e, s[1..]);
      var r := [s[0]] + rest;
      forall i | 0 <= i < |r| ensures r[i].1 <= b {
        if i > 0 { assert r[i] == rest[i - 1]; }
      }
    }
  }

  lemma {:induction false} InsertDescSorted(e: (string, nat), s: Counts)
    requires NonIncreasing(s)
    ensures NonIncreasing(InsertDesc(e, s))
  {
    if s != [] && s[0].1 >= e.1 {
      var rest := InsertDesc(e, s[1..]);
      InsertDescSorted(e, s[1..]);
      InsertDescBounded(e, s[1..], s[0].1);
      var r := [s[0]] + rest;
      forall i, j | 0 <= i < j < |r| ensures r[i].1 >= r[j].1 {
        if i == 0 {
          assert r[j] == rest[j - 1];
        } else {
          assert r[i] == rest[i - 1] && r[j] == rest[j - 1];
        }
      }
    }
  }

  /** `entries.sort((a, b) => b[1] - a[1])`: a stable insertion sort by
      decreasing count (the sort of `Array.prototype.sort` is stable). */
  function SortByCount(c: Counts): (r: Counts)
    ensures |r| == |c|
  {
    if c == [] then [] else InsertDesc(c[|c| - 1], SortByCount(c[..|c| - 1]))
  }

  /** The table lists the same entries, by non-increasing count. */
  lemma {:induction false} SortByCountSorted(c: Counts)
    ensures NonIncreasing(SortByCount(c))
    ensures multiset(SortByCount(c)) == multiset(c)
  {
    if c != [] {
      var init := c[..|c| - 1];
      var e := c[|c| - 1];
      SortByCountSorted(init);
      InsertDescSorted(e, SortByCount(init));
      InsertDescPermutes(e, SortByCount(init));
      assert c == init + [e];
    }
  }

  lemma {:induction false} WithCountAppend(a: Counts, b: Counts, n: nat)
    ensures WithCount(a + b, n) == WithCount(a, n) + WithCount(b, n)
  {
    if a != [] {
      assert (a + b)[1..] == a[1..] + b;
      WithCountAppend(a[1..], b, n);
    } else {
      assert a + b == b;
    }
  }

  lemma {:induction false} WithCountNone(s: Counts, n: nat)
    requires forall i :: 0 <= i < |s| ==> s[i].1 != n
    ensures WithCount(s, n) == []
  {
    if s != [] {
      WithCountNone(s[1..], n);
    }
  }

  function Only(e: (string, nat), n: nat): Counts {
    if e.1 == n then [e] else []
  }

  /** Inserting `e` adds it after every entry of the same count. */
  lemma {:induction false} InsertDescStable(e: (string, nat), s: Counts, n: nat)
    requires NonIncreasing(s)
    ensures WithCount(InsertDesc(e, s), n) == WithCount(s, n) + Only(e, n)
  {
    if s == [] {
      WithCountCons(e, s, n);
      assert [e] + s == InsertDesc(e, s);
    } else if s[0].1 >= e.1 {
      var tail := s[1..];
      var rest := InsertDesc(e, tail);
      assert InsertDesc(e, s) == [s[0]] + rest;
      NonIncreasingTail(s);
      InsertDescStable(e, tail, n);
      WithCountCons(s[0], rest, n);
      WithCountCons(s[0], tail, n);
      assert [s[0]] + tail == s;
      var a, b, c := Only(s[0], n), WithCount(tail, n), Only(e, n);
      assert a + (b + c) == (a + b) + c;
    } else {
      assert InsertDesc(e, s) == [e] + s;
      WithCountCons(e, s, n);
      if e.1 == n {
        WithCountNone(s, n);
        assert Only(e, n) + [] == [] + Only(e, n);
      } else {
        assert [] + WithCount(s, n) == WithCount(s, n) + [];
      }
    }
  }

  lemma WithCountCons(x: (string, nat), s: Counts, n: nat)
    ensures WithCount([x] + s, n) == Only(x, n) + WithCount(s, n)
  {
    assert ([x] + s)[1..] == s;
  }

  lemma NonIncreasingTail(s: Counts)
    requires s != [] && NonIncreasing(s)
    ensures NonIncreasing(s[1..])
  {
    var t := s[1..];
    forall i, j | 0 <= i < j < |t| ensures t[i].1 >= t[j].1 {
      assert t[i] == s[i + 1] && t[j] == s[j + 1];
    }
  }

  /** The sort keeps, for every count, the entries with that count in their
      original (insertion) order. */
  lemma {:induction false} SortByCountStable(c: Counts, n: nat)
    ensures WithCount(SortByCount(c), n) == WithCount(c, n)
  {
    if c != [] {
      var init := c[..|c| - 1];
      var e := c[|c| - 1];
      SortByCountStable(init, n);
      SortByCountSorted(init);
      InsertDescStable(e, SortByCount(init), n);
      var one: Counts := [e];
      assert c == init + one;
      WithCountAppend(init, one, n);
      assert one[1..] == [];
      assert WithCount(one, n) == Only(e, n);
    }
  }

  function EntryLine(e: (string, nat)): (line: string)
    ensures ':' in line
  {
    var line := e.0 + ": " + NatToString(e.1);
    assert line[|e.0|] == ':';
    line
  }

  function EntryLines(c: Counts): (lines: seq<string>)
    ensures |lines| == |c|
    ensures forall i :: 0 <= i < |c| ==> lines[i] == EntryLine(c[i])
  {
    seq(|c|, i requires 0 <= i < |c| => EntryLine(c[i]))
  }

  lemma {:induction false} JoinKeepsColon(xs: seq<string>, sep: string)
    requires xs != [] && ':' in xs[0]
    ensures ':' in Join(xs, sep)
  {
    var j := Join(xs, sep);
    if |xs| > 1 {
      assert j == xs[0] + (sep + Join(xs[1..], sep));
    }
    var k :| 0 <= k < |xs[0]| && xs[0][k] == ':';
    assert j[k] == ':';
  }

  /** `renderTable(obj)`: "key: count" lines by decreasing count, or the
      no-data text when the counter is empty. */
  function RenderTable(c: Counts): (r: string)
    ensures r == NO_DATA <==> c == []
    ensures c != [] ==> r == Join(EntryLines(SortByCount(c)), "\n")
  {
    var t := Join(EntryLines(SortByCount(c)), "\n");
    if t == "" then NO_DATA
    else
      assert c != [] && t != NO_DATA by {
        if c != [] {
          var s := SortByCount(c);
          JoinKeepsColon(EntryLines(s), "\n");
          assert ':' !in NO_DATA;
        }
      }
      t
  }

  /* ---------- fillSelect and populateFilters ---------- */

  /** A filter drop-down: its option values and its selected value. The
      first option, value "", is "all". */
  class Select {
    var options: seq<string>
    var value: string

    constructor(options0: seq<string>, value0: string)
      ensures options == options0 && value == value0
    {
      options := options0;
      value := value0;
    }

    /** `fillSelect(id, values, keepValue)`: "" first, then the values sorted;
        the previous selection survives only when `keepValue` is set, it was
        not "", and it is still an option. */
    method Fill(values: set<string>, keepValue: bool)
      modifies this
      ensures |options| == |values| + 1 && options[0] == ""
      ensures Strings.StrictlySorted(options[1..])
      ensures forall x :: x in options[1..] <==> x in values
      ensures value == if keepValue && old(value) != "" && old(value) in options then old(value) else ""
      ensures value in options
    {
      var current := value;
      var sorted := Strings.SortedOf(values);
      options := [""] + sorted;
      assert options[1..] == sorted;
      if keepValue && current != "" {
        var stillOffered := current in options;
        value := if stillOffered then current else "";
      } else {
        value := "";
      }
    }
  }

  /** The values a filter offers: the truthy field values of the records, as strings. */
  function ValuesOf(docs: seq<Value>, path: seq<string>): set<string>
  {
    if docs == [] then {}
    else
      var last := GetPath(docs[|docs| - 1], path);
      ValuesOf(docs[..|docs| - 1], path) + (if Truthy(last) then {ToString(last)} else {})
  }

  /** A value is offered exactly when some fetched record has it, truthy, at that field. */
  lemma {:induction false} ValuesOfSpec(docs: seq<Value>, path: seq<string>, x: string)
    ensures x in ValuesOf(docs, path) <==>
              exists i :: 0 <= i < |docs| && Truthy(GetPath(docs[i], path)) && ToString(GetPath(docs[i], path)) == x
  {
    if docs != [] {
      var init := docs[..|docs| - 1];
      ValuesOfSpec(init, path, x);
      if x in ValuesOf(init, path) {
        var i :| 0 <= i < |init| && Truthy(GetPath(init[i], path)) && ToString(GetPath(init[i], path)) == x;
        assert docs[i] == init[i];
      }
      if exists i :: 0 <= i < |docs| && Truthy(GetPath(docs[i], path)) && ToString(GetPath(docs[i], path)) == x {
        var i :| 0 <= i < |docs| && Truthy(GetPath(docs[i], path)) && ToString(GetPath(docs[i], path)) == x;
        if i < |init| {
          assert docs[i] == init[i];
        }
      }
    }
  }

  const SECTOR_PATH: seq<string> := ["meta", "sector"]
  const TYPE_PATH: seq<string> := ["type"]
  const ROLE_PATH: seq<string> := ["meta", "role"]

  /** The `docs.forEach` of `populateFilters`: the three sets of values. */
  method CollectFilterValues(docs: seq<Value>) returns (sectors: set<string>, types: set<string>, roles: set<string>)
    ensures sectors == ValuesOf(docs, SECTOR_PATH)
    ensures types == ValuesOf(docs, TYPE_PATH)
    ensures roles == ValuesOf(docs, ROLE_PATH)
  {
    sectors, types, roles := {}, {}, {};
    for i := 0 to |docs|
      invariant sectors == ValuesOf(docs[..i], SECTOR_PATH)
      invariant types == ValuesOf(docs[..i], TYPE_PATH)
      invariant roles == ValuesOf(docs[..i], ROLE_PATH)
    {
      var d := docs[i];
      assert docs[..i + 1][..i] == docs[..i] && docs[..i + 1][i] == d;
      var sector := GetPath(d, SECTOR_PATH);
      if Truthy(sector) { sectors := sectors + {ToString(sector)}; }
      var ty := GetPath(d, TYPE_PATH);
      if Truthy(ty) { types := types + {ToString(ty)}; }
      var role := GetPath(d, ROLE_PATH);
      if Truthy(role) { roles := roles + {ToString(role)}; }
    }
    assert docs[..|docs|] == docs;
  }

  /** `populateFilters(docs)`: each drop-down is refilled with "" and then
      the values of its own field in sorted order, keeping a selection that
      is still offered. */
  method PopulateFilters(docs: seq<Value>, sectorSel: Select, typeSel: Select, roleSel: Select)
    requires sectorSel != typeSel && typeSel != roleSel && sectorSel != roleSel
    modifies sectorSel, typeSel, roleSel
    ensures |sectorSel.options| == |ValuesOf(docs, SECTOR_PATH)| + 1 && sectorSel.options[0] == ""
    ensures Strings.StrictlySorted(sectorSel.options[1..])
    ensures forall x :: x in sectorSel.options[1..] <==> x in ValuesOf(docs, SECTOR_PATH)
    ensures |typeSel.options| == |ValuesOf(docs, TYPE_PATH)| + 1 && typeSel.options[0] == ""
    ensures Strings.StrictlySorted(typeSel.options[1..])
    ensures forall x :: x in typeSel.options[1..] <==> x in ValuesOf(docs, TYPE_PATH)
    ensures |roleSel.options| == |ValuesOf(docs, ROLE_PATH)| + 1 && roleSel.options[0] == ""
    ensures Strings.StrictlySorted(roleSel.options[1..])
    ensures forall x :: x in roleSel.options[1..] <==> x in ValuesOf(docs, ROLE_PATH)
    ensures sectorSel.value == if old(sectorSel.value) != "" && old(sectorSel.value) in sectorSel.options then old(sectorSel.value) else ""
    ensures typeSel.value == if old(typeSel.value) != "" && old(typeSel.value) in typeSel.options then old(typeSel.value) else ""
    ensures roleSel.value == if old(roleSel.value) != "" && old(roleSel.value) in roleSel.options then old(roleSel.value) else ""
  {
    var sectors, types, roles := CollectFilterValues(docs);
    sectorSel.Fill(sectors, true);
    typeSel.Fill(types, true);
    roleSel.Fill(roles, true);
  }

  /* ---------- the load handler ---------- */

  /** The inputs of one load: the custom end bound (null for the preset
      ranges), the three drop-down values ("" for all) and the group-by field. */
  datatype LoadFilter = LoadFilter(until: Option<Time>, sector: string, typeFilter: string, role: string, groupBy: string)

  /** The end-bound test of the load loop (docs/js/dashboardV0.js:284-287): with a
      bound, a record passes unless its creation time converts to a later time. */
  predicate BeforeEnd(d: Value, until: Option<Time>, parse: DateParser) {
    until.Some? ==>
      var created := ToDateMaybe(Get(d, "createdAt"), parse);
      !(created.Some? && created.value > until.value)
  }

  /** A drop-down filter test of the load loop: an unset filter passes
      everything, a set one demands the field (a falsy field read as "") to be
      that string. */
  predicate PassesFilter(field: Value, filter: string) {
    filter != "" ==> Or(field, Str("")) == Str(filter)
  }

  /** Whether the loop keeps a record. */
  predicate KeptV0(d: Value, f: LoadFilter, parse: DateParser) {
    BeforeEnd(d, f.until, parse)
    && PassesFilter(GetPath(d, SECTOR_PATH), f.sector)
    && PassesFilter(GetPath(d, TYPE_PATH), f.typeFilter)
    && PassesFilter(GetPath(d, ROLE_PATH), f.role)
  }

  /** The end bound's effect on the counts: with a bound, a record whose
      creation time converts to a time after it adds no key; a record that
      passes the three drop-down filters and has no bound, no convertible
      creation time, or one at or before the bound adds its key at the end. */
  lemma EndBoundRule(docs: seq<Value>, d: Value, f: LoadFilter, parse: DateParser)
    ensures f.until.Some? && ToDateMaybe(Get(d, "createdAt"), parse).Some? &&
            ToDateMaybe(Get(d, "createdAt"), parse).value > f.until.value ==>
              KeptKeys(docs + [d], f, parse) == KeptKeys(docs, f, parse)
    ensures (f.until.None? || ToDateMaybe(Get(d, "createdAt"), parse).None? ||
             ToDateMaybe(Get(d, "createdAt"), parse).value <= f.until.value) &&
            PassesFilter(GetPath(d, SECTOR_PATH), f.sector) &&
            PassesFilter(GetPath(d, TYPE_PATH), f.typeFilter) &&
            PassesFilter(GetPath(d, ROLE_PATH), f.role) ==>
              KeptKeys(docs + [d], f, parse) == KeptKeys(docs, f, parse) + [GroupKey(d, f.groupBy)]
  {
    assert (docs + [d])[..|docs|] == docs;
    assert KeptKeys(docs, f, parse) + [] == KeptKeys(docs, f, parse);
  }

  /** A set filter demands the field itself to be that very string; an
      unset one lets everything through. */
  lemma FilterIsExact(field: Value, filter: string)
    ensures filter == "" ==> PassesFilter(field, filter)
    ensures filter != "" ==> (PassesFilter(field, filter) <==> field == Str(filter))
  {
  }

  /** The group-by keys of the kept records, in order. */
  function KeptKeys(docs: seq<Value>, f: LoadFilter, parse: DateParser): (ks: seq<string>)
    ensures |ks| <= |docs|
  {
    if docs == [] then []
    else
      var d := docs[|docs| - 1];
      KeptKeys(docs[..|docs| - 1], f, parse) + (if KeptV0(d, f, parse) then [GroupKey(d, f.groupBy)] else [])
  }

  /** The `snap.forEach` loop: each kept record adds one to its key. */
  method LoadCounts(docs: seq<Value>, f: LoadFilter, parse: DateParser) returns (counts: Counts, kept: nat)
    ensures counts == Tally(KeptKeys(docs, f, parse))
    ensures kept == |KeptKeys(docs, f, parse)|
  {
    counts := [];
    kept := 0;
    for i := 0 to |docs|
      invariant counts == Tally(KeptKeys(docs[..i], f, parse))
      invariant kept == |KeptKeys(docs[..i], f, parse)|
    {
      var d := docs[i];
      KeptKeysStep(docs, i, f, parse);
      if KeptV0(d, f, parse) {
        var key := GroupKey(d, f.groupBy);
        TallyAppend(KeptKeys(docs[..i], f, parse), key);
        counts := Bump(counts, key);
        kept := kept + 1;
      }
    }
    assert docs[..|docs|] == docs;
  }

  /** One more record adds its key at the end when it is kept, and nothing otherwise. */
  lemma KeptKeysStep(docs: seq<Value>, i: nat, f: LoadFilter, parse: DateParser)
    requires i < |docs|
    ensures KeptV0(docs[i], f, parse) ==>
              KeptKeys(docs[..i + 1], f, parse) == KeptKeys(docs[..i], f, parse) + [GroupKey(docs[i], f.groupBy)]
    ensures !KeptV0(docs[i], f, parse) ==> KeptKeys(docs[..i + 1], f, parse) == KeptKeys(docs[..i], f, parse)
  {
    var p := docs[..i + 1];
    assert p[..|p| - 1] == docs[..i] && p[|p| - 1] == docs[i];
    assert KeptKeys(docs[..i], f, parse) + [] == KeptKeys(docs[..i], f, parse);
  }

  /** The number of kept records whose key is `k`. */
  function KeptWithKey(docs: seq<Value>, f: LoadFilter, parse: DateParser, k: string): nat
  {
    if docs == [] then 0
    else
      var d := docs[|docs| - 1];
      KeptWithKey(docs[..|docs| - 1], f, parse, k) + (if KeptV0(d, f, parse) && GroupKey(d, f.groupBy) == k then 1 else 0)
  }

  lemma {:induction false} KeptKeysOccurrences(docs: seq<Value>, f: LoadFilter, parse: DateParser, k: string)
    ensures Occurrences(KeptKeys(docs, f, parse), k) == KeptWithKey(docs, f, parse, k)
  {
    if docs != [] {
      var init := docs[..|docs| - 1];
      var d := docs[|docs| - 1];
      KeptKeysOccurrences(init, f, parse, k);
      var ks := KeptKeys(init, f, parse);
      if KeptV0(d, f, parse) {
        assert (ks + [GroupKey(d, f.groupBy)])[..|ks|] == ks;
      } else {
        assert ks + [] == ks;
      }
    }
  }

  /** The counts are right: each key counts the kept records with that key,
      every key appears once, the counts add up to `kept`, and `kept` is at
      most the number of fetched records. */
  lemma LoadCountsSpec(docs: seq<Value>, f: LoadFilter, parse: DateParser)
    ensures UniqueKeys(Tally(KeptKeys(docs, f, parse)))
    ensures Total(Tally(KeptKeys(docs, f, parse))) == |KeptKeys(docs, f, parse)| <= |docs|
    ensures forall k :: CountOf(Tally(KeptKeys(docs, f, parse)), k) == KeptWithKey(docs, f, parse, k)
  {
    TallySpec(KeptKeys(docs, f, parse));
    forall k ensures CountOf(Tally(KeptKeys(docs, f, parse)), k) == KeptWithKey(docs, f, parse, k) {
      KeptKeysOccurrences(docs, f, parse, k);
    }
  }

  /** Without an end bound and without filters, every fetched record is counted. */
  lemma {:induction false} NoFiltersKeepAll(docs: seq<Value>, groupBy: string, parse: DateParser)
    ensures |KeptKeys(docs, LoadFilter(None, "", "", "", groupBy), parse)| == |docs|
  {
    if docs != [] {
      NoFiltersKeepAll(docs[..|docs| - 1], groupBy, parse);
    }
  }
}
