/** functions/index.js: the `getStats` callable. It checks that the caller
    is signed in and is an admin, reads its arguments with their defaults,
    validates `groupBy`, and counts the fetched records per key. */
module FunctionsIndex {
  import opened Js
  import opened Schema
  import opened Histogram

  /** The `HttpsError` codes the function raises. */
  datatype ErrorCode = Unauthenticated | PermissionDenied | InvalidArgument

  /** The returned `{ counts, total, groupBy, daysBack }`. */
  datatype Stats = Stats(counts: Counts, total: nat, groupBy: string, daysBack: Num)

  datatype Outcome = Done(stats: Stats) | Failed(code: ErrorCode)

  /** The four accepted group-by fields (functions/index.js:27). */
  const ALLOWED: set<string> := {"type", "sector", "role", "name"}

  /** The requested group-by field, or "type" when none is given or it is falsy (functions/index.js:24). */
  function GroupByArg(data: Value): Value {
    Or(And(data, Get(data, "groupBy")), Str("type"))
  }

  /** The requested window in days, converted to a number; 30 when none is given or it is falsy (functions/index.js:25). */
  function DaysBackArg(data: Value): Num {
    ToNumber(Or(And(data, Get(data, "daysBack")), Number(Finite(30.0))))
  }

  /** `allowed.has(groupBy)`: only one of the four strings is accepted. */
  predicate ValidGroupBy(g: Value) {
    g.Str? && g.s in ALLOWED
  }

  /** The group-by key of each record, in order. */
  function GroupKeys(docs: seq<Value>, groupBy: string): (ks: seq<string>)
    ensures |ks| == |docs|
    ensures forall i :: 0 <= i < |docs| ==> ks[i] == GroupKey(docs[i], groupBy)
  {
    seq(|docs|, i requires 0 <= i < |docs| => GroupKey(docs[i], groupBy))
  }

  /** `getStats(data, context)`. The admin lookup is the parameter `isAdmin`
      (given `context.auth.uid`), and `docs` is the result of the query for
      records created since the start of the window. */
  method GetStats(data: Value, context: Value, isAdmin: Value -> bool, docs: seq<Value>) returns (out: Outcome)
    ensures !Truthy(Get(context, "auth")) ==> out == Failed(Unauthenticated)
    ensures Truthy(Get(context, "auth")) && !isAdmin(Get(Get(context, "auth"), "uid")) ==>
              out == Failed(PermissionDenied)
    ensures Truthy(Get(context, "auth")) && isAdmin(Get(Get(context, "auth"), "uid")) && !ValidGroupBy(GroupByArg(data)) ==>
              out == Failed(InvalidArgument)
    ensures Truthy(Get(context, "auth")) && isAdmin(Get(Get(context, "auth"), "uid")) && ValidGroupBy(GroupByArg(data)) ==>
              out == Done(Stats(Tally(GroupKeys(docs, GroupByArg(data).s)), |docs|, GroupByArg(data).s, DaysBackArg(data)))
  {
    var auth := Get(context, "auth");
    if !Truthy(auth) {
      return Failed(Unauthenticated);
    }
    if !isAdmin(Get(auth, "uid")) {
      return Failed(PermissionDenied);
    }
    var groupByValue := GroupByArg(data);
    var daysBack := DaysBackArg(data);
    if !ValidGroupBy(groupByValue) {
      return Failed(InvalidArgument);
    }
    var groupBy := groupByValue.s;
    var counts: Counts := [];
    for i := 0 to |docs|
      invariant counts == Tally(GroupKeys(docs[..i], groupBy))
    {
      var key := GroupKey(docs[i], groupBy);
      assert GroupKeys(docs[..i + 1], groupBy) == GroupKeys(docs[..i], groupBy) + [key];
      TallyAppend(GroupKeys(docs[..i], groupBy), key);
      counts := Bump(counts, key);
    }
    assert docs[..|docs|] == docs;
    out := Done(Stats(counts, |docs|, groupBy, daysBack));
  }

  /** Missing arguments take their defaults: "type" and 30 days. */
  lemma Defaults(data: Value)
    ensures !Truthy(data) ==> GroupByArg(data) == Str("type") && DaysBackArg(data) == Finite(30.0)
    ensures !Truthy(Get(data, "groupBy")) ==> GroupByArg(data) == Str("type")
    ensures Truthy(data) && Truthy(Get(data, "groupBy")) ==> GroupByArg(data) == Get(data, "groupBy")
  {
  }

  /** A falsy `daysBack` (absent, null, 0, "", NaN, false) becomes 30; a
      truthy one goes through `Number`. */
  lemma DaysBackRule(data: Value)
    ensures !Truthy(Get(data, "daysBack")) ==> DaysBackArg(data) == Finite(30.0)
    ensures Truthy(data) && Truthy(Get(data, "daysBack")) ==> DaysBackArg(data) == ToNumber(Get(data, "daysBack"))
    ensures DaysBackArg(Object(map["daysBack" := Number(Finite(0.0))])) == Finite(30.0)
  {
  }

  /** The response is a histogram of the fetched records: every key once,
      each key counting the records that map to it, and the counts adding
      up to the returned total. */
  lemma StatsSpec(docs: seq<Value>, groupBy: string)
    ensures UniqueKeys(Tally(GroupKeys(docs, groupBy)))
    ensures Total(Tally(GroupKeys(docs, groupBy))) == |docs|
    ensures forall k :: CountOf(Tally(GroupKeys(docs, groupBy)), k) == Occurrences(GroupKeys(docs, groupBy), k)
  {
    TallySpec(GroupKeys(docs, groupBy));
  }
}
