/** Record values that several of the reporting pages compare against, and
    the group-by key shared by docs/js/dashboardV0.js and functions/index.js. */
module Schema {
  import opened Js

  /** The `type` of an operational audit record. */
  const AUDIT_TYPE: string := "ביקורת קצה מבצעי"

  /** The key used for a missing type or group-by field. */
  const UNKNOWN: string := "לא ידוע"

  /** The placeholder shown for a missing value. */
  const DASH: string := "—"

  /** The seven ratings the summary pages average (docs/js/pdf.js and docs/js/reports.js). */
  const AUDIT_KEYS: seq<string> :=
    ["appearance", "discipline", "knowledge", "readiness", "cleanliness", "missionDeliveryQuality", "missionMastery"]

  /** The field a recognised `groupBy` names. */
  function GroupField(d: Value, groupBy: string): Value
    requires groupBy in {"type", "sector", "role", "name"}
  {
    if groupBy == "type" then Get(d, "type") else GetPath(d, ["meta", groupBy])
  }

  /** The key a record is counted under (functions/index.js:45-49): the
      chosen field, read at the root for "type" and under `meta` otherwise,
      as a property name; the unknown label when it is falsy or the field
      is not one of the four. */
  function GroupKey(d: Value, groupBy: string): (k: string)
    ensures groupBy !in {"type", "sector", "role", "name"} ==> k == UNKNOWN
    ensures groupBy in {"type", "sector", "role", "name"} ==>
              k == if Truthy(GroupField(d, groupBy)) then ToString(GroupField(d, groupBy)) else UNKNOWN
  {
    var key :=
      if groupBy == "type" then Or(Get(d, "type"), Str(UNKNOWN))
      else if groupBy == "sector" then Or(GetPath(d, ["meta", "sector"]), Str(UNKNOWN))
      else if groupBy == "role" then Or(GetPath(d, ["meta", "role"]), Str(UNKNOWN))
      else if groupBy == "name" then Or(GetPath(d, ["meta", "name"]), Str(UNKNOWN))
      else Str(UNKNOWN);
    ToString(key)
  }
}
