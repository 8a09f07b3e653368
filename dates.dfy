/** Conversion of a stored timestamp field to an instant (`toDateMaybe`, defined
    identically in docs/js/dashboard.js and docs/js/dashboardV0.js). Instants
    are milliseconds; parsing a date string (`new Date(s)` followed by the
    `isNaN(d.getTime())` test) is the platform's, so it is a parameter. */
module Dates {
  import opened Js

  type Time = int

  /** `new Date(s)`: `Some(t)` when the string parses, `None` for an Invalid Date. */
  type DateParser = string -> Option<Time>

  /** `toDateMaybe(ts)`: falsy values give null, an object with `toDate()`
      converts, a string converts when it parses, anything else gives null. */
  function ToDateMaybe(ts: Value, parse: DateParser): (d: Option<Time>)
    ensures !Truthy(ts) ==> d == None
    ensures ts.Timestamp? ==> d == Some(ts.millis)
    ensures ts.Str? && ts.s != "" ==> d == parse(ts.s)
  {
    if !Truthy(ts) then None
    else if ts.Timestamp? then Some(ts.millis)
    else if ts.Str? then parse(ts.s)
    else None
  }

  /** Only the two accepted shapes ever give a date: a `toDate()` object, or a
      non-empty string the parser accepts. Numbers, booleans, plain objects
      and arrays give null whatever they hold. */
  lemma ToDateMaybeShapes(ts: Value, parse: DateParser)
    ensures ToDateMaybe(ts, parse).Some? <==>
              ts.Timestamp? || (ts.Str? && ts.s != "" && parse(ts.s).Some?)
  {
  }

  /** `a || b` on the results of two conversions (a Date object is always truthy). */
  function OrElse(a: Option<Time>, b: Option<Time>): (r: Option<Time>)
    ensures a.Some? ==> r == a
    ensures a.None? ==> r == b
  {
    if a.Some? then a else b
  }
}
