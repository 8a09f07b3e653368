# Operational review reports — a verified model of the reporting logic

The system collects operational review records: inspections, drills and
operational audits (ביקורת קצה מבצעי). Each record is a Firestore document
with a `type`, a `meta` block (name, role, sector, force), timestamps, free
text, and, for audits, 1–5 ratings. Several browser pages and one cloud
function turn these records into other forms:

- statistics grouped by sector and type, with the צמ"מ role split out and
  practical drills counted twice (`docs/js/dashboard.js`);
- simpler histograms per group-by key (`docs/js/dashboardV0.js` in the
  browser, `getStats` in `functions/index.js` on the server);
- a report list with a weighted 0–100 audit score, HTML escaping and an
  edit form (`docs/js/reportsV0.js`), and a later list with a 1–5 average
  column and a name search (`docs/js/reports.js`);
- a WhatsApp summary text for one record (`docs/js/pdf.js`).

This project models that logic in Dafny and proves what it promises. Each
source file has its own module.

| module | file | source |
|---|---|---|
| `Js` | js.dfy | the JavaScript values of a document snapshot; `\|\|`, `&&`, `??`, `?.`; `String`, `Number`, `trim`, `toLowerCase`, `join`, `Math.round` |
| `Dates` | dates.dfy | `toDateMaybe` (the same in dashboard.js and dashboardV0.js) |
| `Schema` | schema.dfy | shared constants and the group-by key of the two histograms |
| `Ratings` | ratings.dfy | the `avg` of eligible ratings, and rounding to one decimal |
| `Html` | html.dfy | `escapeHtml` (the same in reportsV0.js and reports.js) |
| `Histogram` | histogram.dfy | the `counts[key] = (counts[key] \|\| 0) + 1` counter, in insertion order |
| `Strings` | strings.dfy | the default string order of `sort()` and `[...set].sort()` |
| `Dashboard` | dashboard.dfy | docs/js/dashboard.js |
| `DashboardV0` | dashboard_v0.dfy | docs/js/dashboardV0.js |
| `ReportsV0` | reports_v0.dfy | docs/js/reportsV0.js |
| `Reports` | reports.dfy | docs/js/reports.js |
| `Pdf` | pdf.dfy | docs/js/pdf.js |
| `FunctionsIndex` | functions_index.dfy | functions/index.js |

How the model represents the source:

- A record is a `Js.Value`. Missing fields are `Undefined`. Truthiness and
  the coercions follow JavaScript, and numbers are exact reals.
- A Firestore Timestamp, or anything else with `toDate()`, is
  `Timestamp(ms)`, and instants are integer milliseconds.
- `new Date(string)` is a parameter `DateParser`, and date formatting is a
  parameter `Clock`.
- Loops that fill a counter or a list are methods with loop invariants.
  Each method is proved against a function on its inputs, and the lemmas
  state the properties of those functions.
- The filter drop-down of dashboardV0.js is a class whose `Fill` method
  rewrites its options and its selection.

The weighted audit score (docs/js/reportsV0.js:94-102) keeps its fixed
weights whatever rating groups are present: a group without eligible
ratings counts as 0, the other weights are not scaled up, and a record with
no ratings at all scores 0 rather than "no score"
(`ReportsV0.MissingGroupsCountZero`, `ReportsV0.NoRatings`). Scaling the
weights over the groups present would be the other plausible reading of a
weighted score; the model keeps what the code computes.

## Model

| member | source | states |
|---|---|---|
| Dates.ToDateMaybe | docs/js/dashboardV0.js:178-187 | a falsy value gives null; a `toDate()` object gives its instant; a non-empty string gives what the parser makes of it; other shapes give null |
| Dates.ToDateMaybeShapes | docs/js/dashboard.js:64-72 | a date comes out exactly for a `toDate()` object or a non-empty string that parses |
| Dashboard.ReplaceQuotes | docs/js/dashboard.js:46 | same length; every ״, “ or ” becomes `"` and every other character is kept |
| Dashboard.NormalizeRole | docs/js/dashboard.js:43-47 | the result is trimmed and contains none of ״ “ ”; a falsy input (null, undefined, "") gives "" |
| Dashboard.NormalizeRoleIdempotent | docs/js/dashboard.js:43-47 | normalising a normalised role changes nothing |
| Dashboard.QuoteSpellingsAgree | docs/js/dashboard.js:46 | a text with ״, “ or ” normalises like the same text with `"` |
| Dashboard.TzmmSpellings | docs/js/dashboard.js:103-104 | צמ״מ, צמ“מ, צמ”מ and צמ"מ, with any surrounding white space, all normalise to צמ"מ |
| Dashboard.ReadRole | docs/js/dashboard.js:49-51 | the root `role` is used when truthy, otherwise `meta.role`, so an empty root role falls through |
| Dashboard.RoleLayoutsAgree | docs/js/dashboard.js:49-51 | a role stored at the root reads the same as the same role stored under `meta` |
| Dashboard.DrillMarkerDecides | docs/js/dashboard.js:53-62 | `Dashboard.IsPracticalDrill` (isPracticalDrill): the first truthy of the five locations decides, by its trimmed text being מעשי; later locations are masked |
| Dashboard.NoDrillMarker | docs/js/dashboard.js:53-62 | with all five locations falsy, the record is not a practical drill |
| Dashboard.GetEventDate | docs/js/dashboard.js:74-76 | the converted `eventAt` if it converts, otherwise the converted `createdAt` |
| Dashboard.EventDateExists | docs/js/dashboard.js:74-76 | there is an event date exactly when one of the two fields converts |
| Dashboard.Classify | docs/js/dashboard.js:91-104 | a counted record is in one of the four sectors, and only an audit can also count as a drill |
| Dashboard.SkipRules | docs/js/dashboard.js:92-101 | one more record leaves the counted entries (so every bucket, label and `kept`) unchanged exactly when it has no event date, is before the start or after the end, has a sector outside the list, or fails the type filter; otherwise it adds its own entry at the end |
| Dashboard.TypeFilterKeepsType | docs/js/dashboard.js:100-101 | with a type filter, every counted record has exactly that type, and a drill is counted only when the filter is the audit type |
| Dashboard.Entries | docs/js/dashboard.js:91-139 | at most as many counted records as records |
| Dashboard.CountLabel | docs/js/dashboard.js:107-118 | creates the `{tzmm, other}` cell when absent and increments the right half |
| Dashboard.CountEntry | docs/js/dashboard.js:106-136 | one counted record updates only its own sector's bucket, and adds its type and possibly the drill label to the type set |
| Dashboard.CountRecord | docs/js/dashboard.js:91-138 | a record is counted exactly when it passes the tests; a skipped record changes nothing |
| Dashboard.Balances | docs/js/dashboard.js:82-141 | the sector totals add up to the kept records, and in each sector the type cells add up to the totals plus the drills counted twice |
| Dashboard.EmptyBuckets | docs/js/dashboard.js:83-86 | every sector starts with an empty bucket, the bucket of no records |
| Dashboard.CountAll | docs/js/dashboard.js:88-139 | after the loop each sector's bucket, the seen types and `kept` are those of the records counted |
| Dashboard.CountNext | docs/js/dashboard.js:91-139 | one more record moves buckets, types and `kept` from the records before it to the records up to it |
| Dashboard.Aggregate | docs/js/dashboard.js:82-141 | all four sectors are present and zeroed for empty input; each bucket counts exactly its records; `kept` is the number counted and at most the input; `types` is sorted, without repeats, with exactly the labels seen |
| Strings.SortedOf | docs/js/dashboard.js:141 | `[...set].sort()` lists every element once, in strictly increasing order |
| Histogram.BumpSpec | docs/js/dashboardV0.js:299 | one increment raises one key by 1, leaves the others alone, keeps keys unique, and appends a new key at the end |
| Histogram.TallySpec | functions/index.js:42-51 | after counting a list of keys, each key appears once, its count is its number of occurrences, and the counts add up to the length |
| Histogram.TallyKeys | docs/js/dashboardV0.js:293-299 | the counter's keys are exactly the keys counted |
| Histogram.TallyAppend | docs/js/dashboardV0.js:299 | counting one more key is one more increment |
| Schema.GroupKey | functions/index.js:45-49 | the chosen field as a string when truthy, otherwise "לא ידוע"; an unknown `groupBy` always gives "לא ידוע" |
| Html.EscapeHtml | docs/js/reportsV0.js:288-295 | the result contains no `<`, `>`, `"` or `'`; null and undefined give "" |
| Html.EscapeChainPerChar | docs/js/reportsV0.js:289-294 | the five `replaceAll` passes, ampersand first, are the same as escaping each character once |
| Html.EscapeHtmlRoundTrip | docs/js/reports.js:98-105 | decoding the five entities in the escaped text gives back the original string |
| Html.EscapePlain | docs/js/reportsV0.js:288-295 | text without special characters is left unchanged |
| Ratings.EligibleValues | docs/js/reportsV0.js:66 | only finite positive numbers are kept; nothing is kept exactly when nothing is eligible |
| Ratings.Avg | docs/js/reportsV0.js:65-69 | null exactly when no value is eligible, otherwise a positive mean |
| Ratings.AvgBounds | docs/js/reportsV0.js:65-69 | the mean lies within the bounds of the eligible values |
| Ratings.AvgIgnores | docs/js/reportsV0.js:66 | an ineligible value (missing, 0, NaN, text) anywhere does not change the average |
| Ratings.AvgOfConstant | docs/js/reportsV0.js:65-69 | equal ratings average to that rating |
| Ratings.OneDecimal | docs/js/pdf.js:24 | `Math.round(x * 10) / 10` is within 0.05 of x |
| Ratings.OneDecimalRange | docs/js/pdf.js:24 | rounding to one decimal stays within [0, hi] |
| ReportsV0.Clamp1to5 | docs/js/reportsV0.js:55 | the result is in [1, 5]; it is the value itself in range, 5 above it and for +Infinity, and 1 below it and for NaN or -Infinity |
| ReportsV0.IconOfLevel | docs/js/reportsV0.js:56-63 | `ReportsV0.Icon` (icon): 5 and above give 🟢, 4 gives ✅, 3 gives 🙂, 2 gives ⚠️, 1 and below give 🔴 |
| ReportsV0.IconGreen | docs/js/reportsV0.js:56-63 | `ReportsV0.Icon` is green exactly for values at least 5, including +Infinity |
| ReportsV0.IconRed | docs/js/reportsV0.js:56-63 | NaN, -Infinity and any fractional value below 5 give red, because the strict tests for 4, 3 and 2 miss them |
| ReportsV0.IconLevelsDistinct | docs/js/reportsV0.js:56-63 | the five whole levels have five different icons |
| ReportsV0.To100 | docs/js/reportsV0.js:71-74 | null for null; otherwise the integer nearest to avg·20, ties rounded up |
| ReportsV0.To100Range | docs/js/reportsV0.js:71-74 | an average in [0, 5] maps into [0, 100], and one of at least 1 maps to at least 20 |
| ReportsV0.To100Monotone | docs/js/reportsV0.js:71-74 | a larger average never gets a smaller score |
| ReportsV0.ComputeScores | docs/js/reportsV0.js:76-78 | no scores exactly when there is no audit |
| ReportsV0.GroupOfConstant | docs/js/reportsV0.js:79-92 | a group whose fields all hold the same positive rating averages to it |
| ReportsV0.GroupUnrated | docs/js/reportsV0.js:79-92 | a group with no eligible rating has no average |
| ReportsV0.UniformRatings | docs/js/reportsV0.js:76-108 | when all twelve ratings are v, every sub-score and the overall score are round(20v), and the 1–5 score is v to one decimal |
| ReportsV0.AllFivesAndFours | docs/js/reportsV0.js:76-108 | all fives score 100 and 5.0; all fours score 80 and 4.0 |
| ReportsV0.NoRatings | docs/js/reportsV0.js:76-108 | with no eligible rating the overall score is 0 and every sub-score is null |
| ReportsV0.MissingGroupsCountZero | docs/js/reportsV0.js:94-102 | with only operational ratings v, the overall score is round(16v), so all fives give 80 |
| ReportsV0.OperationalReadsOnlyOp | docs/js/reportsV0.js:79-88 | the operational sub-score depends only on the eight operational fields |
| ReportsV0.ScoresInRange | docs/js/reportsV0.js:94-106 | with ratings at most 5, the overall score is in [0, 100], the 1–5 score in [0, 5] and the operational score in [0, 100] |
| ReportsV0.GetOverallScoreDisplay | docs/js/reportsV0.js:110-112 | "—" unless the record is an audit with ratings |
| ReportsV0.DisplayPrefersStored | docs/js/reportsV0.js:113-114 | an audit record with a truthy stored `score` displays `score.overall100`, or "—" when that is nullish, whatever its ratings; records sharing that stored score display alike |
| ReportsV0.DisplayComputed | docs/js/reportsV0.js:113-114 | without a truthy stored score, an audit record displays its computed overall score, whatever its ratings |
| ReportsV0.DisplayComputedRange | docs/js/reportsV0.js:113-114 | with ratings of at most 5, that computed display is a number in [0, 100] |
| ReportsV0.DropCR | docs/js/reportsV0.js:376 | a line loses at most one trailing carriage return |
| ReportsV0.SplitLines | docs/js/reportsV0.js:376 | splitting always yields at least one piece |
| ReportsV0.SplitLinesNoLineFeed | docs/js/reportsV0.js:376 | no piece contains a line feed |
| ReportsV0.TrimAll | docs/js/reportsV0.js:377 | each piece is trimmed, and none is dropped |
| ReportsV0.NonEmpty | docs/js/reportsV0.js:378 | only non-empty pieces are kept, each one taken from the input |
| ReportsV0.Take | docs/js/reportsV0.js:379 | `slice(0, n)` is a prefix of at most n items, and the whole list when it is short enough |
| ReportsV0.ParseLines | docs/js/reportsV0.js:375-379 | a list field holds at most 20 items |
| ReportsV0.ParseLinesItems | docs/js/reportsV0.js:375-379 | every saved item is non-empty, trimmed, and on one line |
| ReportsV0.SplitJoined | docs/js/reportsV0.js:376 | splitting lines joined by LF or CRLF gives back the lines, up to trimming |
| ReportsV0.ParseJoined | docs/js/reportsV0.js:375-379 | parsing lines joined by LF or CRLF gives the first 20 non-empty trimmed lines |
| ReportsV0.ParseLinesRoundTrip | docs/js/reportsV0.js:375-379 | a list of at most 20 items, written one per line, parses back to itself |
| ReportsV0.ParseLinesIdempotent | docs/js/reportsV0.js:375-379 | re-editing a saved list without changes saves the same list |
| ReportsV0.EditedEventAt | docs/js/reportsV0.js:361-366 | a blank date field sets no event time; otherwise the parser result for the trimmed text |
| ReportsV0.BuildPayload | docs/js/reportsV0.js:361-399 | every text field is trimmed; keep and improve are parsed; `eventAt` is set only when the date parses; `exerciseDescription` is present exactly for records that are not audits |
| Pdf.StarCount | docs/js/pdf.js:7 | the number of stars is between 1 and 5: 5 from 5 up, 1 below 1, and in between the whole part of the value |
| Pdf.Stars | docs/js/pdf.js:4-8 | "—" for a value that is not a finite positive number, otherwise that many stars |
| Pdf.StarsOfLevel | docs/js/pdf.js:4-8 | a whole rating k of at least 1 gives min(k, 5) stars |
| Pdf.StarsShape | docs/js/pdf.js:4-8 | "—" exactly for an ineligible value, otherwise 1 to 5 stars and nothing else |
| Pdf.AvgAudit | docs/js/pdf.js:10-25 | null without an audit or without an eligible rating; otherwise the mean of the seven ratings rounded to one decimal |
| Pdf.AvgAuditRange | docs/js/pdf.js:21-24 | with ratings at most 5 the average is in [0, 5] and is a whole number of tenths, at most 50 of them |
| Pdf.AvgAuditReadsOnlyKeys | docs/js/pdf.js:12-21 | only the seven listed fields affect the average |
| Pdf.FmtDate | docs/js/pdf.js:27-32 | a falsy time prints "—"; otherwise the clock's rendering |
| Pdf.HeaderLines | docs/js/pdf.js:38-42 | every summary has five header lines |
| Pdf.AverageSuffix | docs/js/pdf.js:49 | the average suffix is empty exactly when there is no average |
| Pdf.RatingLines | docs/js/pdf.js:50-56 | seven rating lines, in the fixed order |
| Pdf.RatingsBlock | docs/js/pdf.js:44-64 | ten lines for an audit with ratings, none otherwise |
| Pdf.NotesBlock | docs/js/pdf.js:66-70 | three lines when there are notes, none otherwise |
| Pdf.Shown | docs/js/pdf.js:75 | the first three items, or all of them when there are fewer |
| Pdf.ListBlockShape | docs/js/pdf.js:72-82 | an empty list prints nothing; otherwise a blank line, the title, and up to three numbered items "i. x" |
| Pdf.PushRatingLines | docs/js/pdf.js:50-56 | the loop appends exactly the seven rating lines |
| Pdf.PushRatings | docs/js/pdf.js:44-64 | appends exactly the ratings block |
| Pdf.PushNotes | docs/js/pdf.js:66-70 | appends exactly the notes block |
| Pdf.PushList | docs/js/pdf.js:72-82 | the loop appends exactly the list block |
| Pdf.BuildWhatsappText | docs/js/pdf.js:34-85 | the text is the header, ratings, notes, keep and improve blocks, in that order, joined with line feeds |
| Pdf.WhatsappStartsWithHeader | docs/js/pdf.js:38-42 | `Pdf.WhatsappLines` (the lines of buildWhatsappText): every summary starts with the five header lines |
| Pdf.WhatsappLineCount | docs/js/pdf.js:34-85 | the number of lines is 5, plus 10 for ratings, plus 3 for notes, plus the two list blocks |
| Pdf.RatingsTitleShowsAverage | docs/js/pdf.js:49 | the ratings title carries the average exactly when there is one |
| Pdf.TrainingKindOnlyWhenTrained | docs/js/pdf.js:58-63 | the parenthesised training kind appears exactly when `trained` is "yes", and "כן" only then |
| Reports.Fixed1Value | docs/js/reports.js:34 | a `toFixed(1)` string reads back as its number of tenths |
| Reports.AvgAudit | docs/js/reports.js:28-35 | "—" exactly when the summary page's average is null |
| Reports.AvgAuditAgree | docs/js/reports.js:28-35 | the score column and the WhatsApp summary show the same average: "—" together, and otherwise the column's text reads back as the summary's rounded value |
| Reports.StarsAgree | docs/js/reports.js:37-41 | `Reports.Stars` (the list's `stars`), with min and max nested the other way round, equals the summary's for every value |
| Reports.ScoreCell | docs/js/reports.js:184 | a record that is not an audit shows "—" |
| Reports.ScoreCellShown | docs/js/reports.js:184 | a numeric cell belongs to an audit with at least one eligible rating |
| Reports.FilterByName | docs/js/reports.js:219-224 | at most the input; a record is listed exactly when it was fetched and its lower-cased name contains the query |
| Reports.EmptyQueryKeepsAll | docs/js/reports.js:219 | an empty query lists every fetched record, the same as filtering by "" would |
| Reports.FilterByNameAppend | docs/js/reports.js:220-223 | filtering a concatenation filters each part, so the page order is kept |
| Reports.FilterByNameIdempotent | docs/js/reports.js:220-223 | filtering again by the same query changes nothing |
| Reports.NameFilterSpec | docs/js/reports.js:218-224 | exactly the records whose name contains the query are listed |
| DashboardV0.SortByCountSorted | docs/js/dashboardV0.js:52 | `DashboardV0.SortByCount` (the sort of the table): the table lists the same entries, by non-increasing count |
| DashboardV0.SortByCountStable | docs/js/dashboardV0.js:52 | `DashboardV0.SortByCount`: entries with equal counts keep their insertion order |
| DashboardV0.InsertDescStable | docs/js/dashboardV0.js:52 | an inserted entry goes after every entry with the same count |
| DashboardV0.RenderTable | docs/js/dashboardV0.js:51-55 | "אין נתונים" exactly for an empty counter; otherwise the sorted "key: count" lines joined with line feeds |
| DashboardV0.Select.Fill | docs/js/dashboardV0.js:139-159 | options are "" and then the values, sorted and without repeats; the selection is kept only when asked, when it was not "" and when it is still an option, otherwise it becomes ""; the selection is always an option |
| DashboardV0.ValuesOfSpec | docs/js/dashboardV0.js:166-171 | a value is offered exactly when some fetched record has it, truthy, in that field |
| DashboardV0.CollectFilterValues | docs/js/dashboardV0.js:161-171 | the loop collects the sectors, types and roles of the records |
| DashboardV0.PopulateFilters | docs/js/dashboardV0.js:161-176 | each drop-down offers "" first and then its own field's values, sorted and without repeats, and keeps a selection that is still offered |
| DashboardV0.EndBoundRule | docs/js/dashboardV0.js:284-287 | with an end bound, a record whose `createdAt` converts to a later time adds no key to the counts; a record passing the drop-down filters with no bound, no convertible `createdAt`, or one at or before the bound adds its key |
| DashboardV0.FilterIsExact | docs/js/dashboardV0.js:289-291 | an unset filter passes everything; a set filter passes exactly the records whose field is that very string |
| DashboardV0.KeptKeys | docs/js/dashboardV0.js:280-301 | no more kept records than fetched ones |
| DashboardV0.LoadCounts | docs/js/dashboardV0.js:277-301 | the loop's counter is the tally of the kept records' keys, and `kept` is their number |
| DashboardV0.LoadCountsSpec | docs/js/dashboardV0.js:293-300 | each key counts the kept records with that key; keys are unique; the counts add up to `kept`, which is at most the number fetched |
| DashboardV0.NoFiltersKeepAll | docs/js/dashboardV0.js:280-301 | with no end bound and no filters every fetched record is counted |
| FunctionsIndex.GroupKeys | functions/index.js:43-49 | one key per record, computed by the group-by rule |
| FunctionsIndex.GetStats | functions/index.js:20-54 | a missing auth context fails "unauthenticated" before anything else; a non-admin fails "permission-denied"; a `groupBy` outside the four names fails "invalid-argument"; otherwise the counts are the tally of the records' keys and the total is the number of records |
| FunctionsIndex.Defaults | functions/index.js:24 | missing data or a falsy `groupBy` gives "type"; a truthy one is used as given |
| FunctionsIndex.DaysBackRule | functions/index.js:25 | a falsy `daysBack`, 0 included, becomes 30; a truthy one goes through `Number` |
| FunctionsIndex.StatsSpec | functions/index.js:42-53 | each key appears once and counts the records that map to it, and the counts add up to the returned total |

## Left out

- Firestore reads and writes are not modelled. The fetched records are an
  input sequence; `updateDoc` stands for the payload record it would send.
  Paging with `limit`/`startAfter` and the JSON export are also left out.
- The DOM, the modals, Chart.js, the login buttons and clipboard/Blob output
  are not modelled. Form fields are strings, and a missing element reads as "".
- The page-level `fmtDate` formatting is the `Clock` parameter. `Date.now()`
  windows, `setHours(23, 59, 59, 999)` and `isoDate` become the bounds the
  loops receive.
- `new Date(string)` is the `DateParser` parameter.
- `assertAdmin` (the `admins` collection lookup) is the `isAdmin` parameter
  of `FunctionsIndex.GetStats`. The `since` window query is the input
  sequence. `daysBack` is returned but only feeds the query.
- Numbers are exact reals, so IEEE-754 rounding of `Math.round`, `toFixed`
  and the weighted sum is not modelled.
- `Number(string)` accepts decimal literals and the infinities. Hex, octal,
  binary and exponent forms give NaN in the model. A Timestamp converts to NaN.
- `String(number)` prints integers and fractions of up to 20 digits and
  never uses exponent notation.
- `trim()` uses the JavaScript white-space set, and `toLowerCase()` maps
  ASCII letters only.
- Strings are sequences of code points, not UTF-16 units, so the `sort()`
  order differs from the source for characters outside the BMP.
- `Object.entries` lists integer-like keys first in JavaScript. The model
  keeps plain insertion order.
- `(data.keep || [])` on a non-array is taken as an empty list and prints
  nothing. For a non-empty string the source throws a TypeError instead:
  a string has no `forEach` after `slice` (docs/js/pdf.js:75) and no `map`
  or `join` (docs/js/reports.js:80, docs/js/reportsV0.js:194, 211).
- A non-string name makes `toLowerCase` throw in the list's name filter.
  The model stringifies it instead.
- After a save, reportsV0.js merges the payload into the open row in memory.
  That merge and the re-render are not modelled.
- Histogram.Bump: the counter is an association list with no inherited
  entries, so every key starts at 0 and gains 1. The source counts into plain `{}` objects
  (functions/index.js:42,50; docs/js/dashboardV0.js:277,299), where a key
  naming an `Object.prototype` member reads the inherited value: for
  "__proto__" the assignment is ignored, and for "constructor",
  "toString", "valueOf", "hasOwnProperty" and the like the count becomes
  a string ending in "1". The model does not capture these keys.
- Histogram.Tally: for such keys the source's counter differs from the
  tally the model computes, as under Histogram.Bump.
- Histogram.BumpSpec: the "+1 on the key" promise does not hold in the
  source for a key naming an `Object.prototype` member (see Histogram.Bump).
- Histogram.TallySpec: "the counts add up to the number of keys" does not
  hold in the source once a key is "__proto__", whose count is dropped.
- Histogram.TallyKeys: in the source "__proto__" never becomes a key.
- DashboardV0.LoadCounts: `kept` still grows for a "__proto__" key while
  the source's `counts` stays unchanged (docs/js/dashboardV0.js:299-300).
- DashboardV0.LoadCountsSpec: per-key counts and "counts add up to kept"
  are the model's; they fail in the source for the inherited keys above.
- FunctionsIndex.GetStats: `counts` is the model's tally; the source's
  `{}` at functions/index.js:42,50 differs for the inherited keys above.
- FunctionsIndex.StatsSpec: "the counts add up to the returned total" is
  false of the source when a key is "__proto__".
- Dashboard.CountLabel: a missing cell is always created. At
  docs/js/dashboard.js:107 a base type naming an `Object.prototype`
  member ("constructor", "__proto__", ...) finds the inherited value,
  gets no cell, and its increment lands on that inherited object.
- Dashboard.Balances: the type cells adding up to the totals fails in the
  source for such a base type, which the totals count but no cell holds.
- Dashboard.Aggregate: for such a base type the source's `byType` holds no
  cell, while the model's bucket counts it like any other type.
- `Dashboard.Aggregate`: `types` holds the stringified base types, while
  dashboard.js:101,120,141 collects the raw `data.type` values. Types that
  differ but print alike (5 and "5") are one entry in the model and two in
  the source; the `byType` keys, which JavaScript stringifies, agree.
- `DashboardV0.Select.Fill`: the missing-element early return is not
  modelled. Values that differ but print as the same string (1 and "1")
  collapse into one option.
- `ReportsV0.BuildPayload`: returns a record with optional fields rather
  than a JavaScript object, so "key absent" is `None`.
- `ReportsV0.ComputeScores`: the weights are not renormalised over the
  groups present, as in the code (see above).
