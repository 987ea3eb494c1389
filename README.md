# Venue insights endpoint, modelled in Dafny

This project models the `GET /api/insights/venue` handler of the click-web
application. A signed-in business user calls the handler to get anonymised
statistics about the connections made at a venue over the last 30 days.

The handler works in this order:

1. It refuses an unauthenticated caller (401).
2. It refuses a caller whose `users.role` is not exactly `verified_business` (403).
3. It takes the venue id from the `venue_id` query parameter, or else from the user's metadata. If neither names one, it answers 400.
4. It asks the `connections` table for that venue's records. A query error gives 500.
5. It answers `insufficient_data` when there are fewer than five records. This is the k-anonymity gate, with k = 5.
6. Otherwise it aggregates the records:
   - a 24-slot histogram of local hours;
   - a per-day tally keyed by the UTC day `YYYY-MM-DD`;
   - the per-day list `dailyData`;
   - the peak hour;
   - the busiest day.

Any thrown exception gives 500.

## Model structure

- `Inputs`:
  - the records the handler reads: the auth reply, the profile reply, connection rows and the query parameter;
  - the collaborators, which the model takes as parameters: `Backend` (authentication, the `users` lookup, the `connections` query) and `DateLib` (date parsing, local hour, UTC day key).
- `Outcomes`: the replies and their HTTP status codes.
- `Gate`: the three early-return checks, in source order.
- `Tallies`:
  - how a record's timestamp is chosen, and the Invalid Date failure;
  - the hour histogram;
  - the per-day tally, which keeps the insertion order of a JavaScript object;
  - `TallyConnections`, the imperative `forEach` loop that fills the hour array in place.
- `Lex`: code-point string order, standing for `localeCompare` on `YYYY-MM-DD` keys.
- `DayOrder`:
  - the two stable in-place sorts of the `dailyData` array, modelled as insertion sort on an `array`;
  - their specification as functions, and what order each produces.
- `Peaks`: `Math.max` / `indexOf` for the peak hour, and the busiest-day expression.
- `VenueInsights`:
  - `Respond`, a reference definition of the whole handler;
  - `Get`, the handler as a method that works on arrays just as the source does;
  - the lemmas that state what the reply promises.

The reply also carries the list of table queries made. This lets the model
state that no query happens before a 401, and that no connections query
happens on a 403 or a 400.

**The `dailyData` that is sent is not in date order.** The source shows
that date order was intended:
- `dailyData` is described as the "daily distribution for line chart" (route.ts:95, 112);
- it is sorted by date at route.ts:115;
- the insights page passes it, in array order, to a line chart whose x axis is the date (app/insights/page.tsx:170-174).

The sort at route.ts:127, which computes `busiestDay`, runs in place on the
same array inside the object literal that is serialised. So the list
actually sent is in count-descending order, with ties in date order, and the
chart's points are out of date order. The model follows the code as written:
- `DailyOrder` proves the order that is sent;
- `SentNotByDate` proves that the list is not date-ascending whenever a later
  day has more records than an earlier one;
- `DateSortAscends` proves that the list as it stands after line 115 is
  strictly date-ascending, which is what the chart expects.

## Model

| member | source | states |
|---|---|---|
| VenueInsights.Get | app/api/insights/venue/route.ts:5-134 | The handler's reply, and the queries it made, equal the reference definition `Respond`. |
| VenueInsights.Aggregate | app/api/insights/venue/route.ts:94-128 | Zeroing and filling the hour array in place, tallying the days, and building the response gives exactly `Summarize`. An Invalid Date gives 500. |
| VenueInsights.Publish | app/api/insights/venue/route.ts:113-128 | Building `dailyData`, sorting it by date, putting it in the response with the hour array, then re-sorting the same array by count, sends the count-ordered list. `peakHour` comes from the hour array, and `busiestDay` is taken from the count-ordered list. |
| VenueInsights.EntryArray | app/api/insights/venue/route.ts:113-114 | The fresh array built from the tally and its insertion order holds exactly the day entries. |
| VenueInsights.UnauthorizedFirst | app/api/insights/venue/route.ts:34-39 | An auth error or a missing user gives 401 with no table queried. Nothing else gives 401. |
| VenueInsights.ForbiddenSecond | app/api/insights/venue/route.ts:43-53 | For a signed-in user, the profile query is always made first. A failed lookup or a role other than `verified_business` gives 403 after only that query. A 403 means exactly that. |
| VenueInsights.VenueResolution | app/api/insights/venue/route.ts:56-66 | For a privileged user, the reply is 400 if and only if neither the parameter nor the metadata is truthy. A 400 makes no connections query. Otherwise the resolved venue is queried. |
| VenueInsights.FetchAndPrivacyGate | app/api/insights/venue/route.ts:72-90 | After admission, a query error gives 500 (FetchFailed). Fewer than 5 rows give `insufficient_data`. 5 or more give the summary. |
| VenueInsights.PrivacyGate | app/api/insights/venue/route.ts:84-90 | `insufficient_data` or statistics are returned only to an admitted request whose query succeeded. `insufficient_data` is returned if and only if there are fewer than 5 rows, and it carries the fixed message of line 88. Statistics report all rows, and there are at least 5 of them. |
| VenueInsights.TimestampFailure | app/api/insights/venue/route.ts:100-108 | The summary is either statistics or 500 (Exception). It is 500 if and only if some record's timestamp is an Invalid Date. |
| VenueInsights.HourlyFacts | app/api/insights/venue/route.ts:94-105 | 24 slots. Slot h counts the records whose local hour is h. The slots sum to `totalConnections`, which is the row count. |
| VenueInsights.PeakFacts | app/api/insights/venue/route.ts:117-119 | `peakHour` is a slot in 0..23 that holds the maximum count. Every earlier slot is strictly smaller. |
| VenueInsights.DailyOrder | app/api/insights/venue/route.ts:113-127 | The `dailyData` sent is ranked: higher counts first, and equal counts in ascending date order. |
| VenueInsights.DailyPermutes | app/api/insights/venue/route.ts:113-127 | The two sorts only reorder the day entries, and the counts still total the number of records. |
| VenueInsights.DailyMembers | app/api/insights/venue/route.ts:107-114 | Every entry sent is a day that has records. Its count is that day's number of records, so at least 1. |
| VenueInsights.DailyCovers | app/api/insights/venue/route.ts:107-114 | Every day that has records has an entry. |
| VenueInsights.DailyRanked | app/api/insights/venue/route.ts:115-127 | Re-sorting the date-sorted entries by count, stably, ranks them by count with ties in date order. |
| VenueInsights.DailyFacts | app/api/insights/venue/route.ts:96-127 | `dailyData` has one entry per day with records and no day twice. Each count is that day's number of records. The entries total `totalConnections`. |
| VenueInsights.BusiestFacts | app/api/insights/venue/route.ts:127 | With 5 or more records, `busiestDay` is the first entry's date. That day has the largest count and is the earliest of the days that share it. It is a real day key, never "N/A". |
| VenueInsights.SentNotByDate | app/api/insights/venue/route.ts:115-127 | If a later day has more records than an earlier one, the `dailyData` sent is not in date order. |
| VenueInsights.InsightsBody.constructor | app/api/insights/venue/route.ts:121-126 | The response object holds the hour and day arrays themselves, not copies. |
| Gate.Admit | app/api/insights/venue/route.ts:34-66 | A refusal is 401, 403 or 400, and has made only profile queries. An admitted caller is signed in and privileged. Its venue id is the one resolved from the parameter and metadata, and is non-empty. |
| Gate.ResolveVenue | app/api/insights/venue/route.ts:56-66 | A truthy parameter wins. Otherwise a truthy metadata value is used. The result is none exactly when both are falsy, and is never empty. |
| Outcomes.StatusCode | app/api/insights/venue/route.ts:36-133 | Each refusal has its own code: 401 exactly for Unauthorized, 403 exactly for Forbidden, 400 exactly for BadRequest. 500 exactly for server errors. 200 exactly for `insufficient_data` and statistics. |
| Tallies.Resolve | app/api/insights/venue/route.ts:98-108 | The records' instants, one per record in order, from `created_at`, else `created`. None exactly when some timestamp does not parse. |
| Tallies.TallyConnections | app/api/insights/venue/route.ts:94-110 | The `forEach` loop stops, with `ok` false, exactly when some timestamp is an Invalid Date. Otherwise the hour array holds the histogram of local hours, and the day map and its key order are the per-day tally. |
| Tallies.HistogramSum | app/api/insights/venue/route.ts:94-105 | The hour histogram's slots sum to the number of records. |
| Tallies.HistogramStep | app/api/insights/venue/route.ts:104-105 | One more record in hour h increments slot h and no other. |
| Tallies.DayTallyCounts | app/api/insights/venue/route.ts:107-109 | The day map has exactly the keys seen, and each maps to its number of occurrences. |
| Tallies.FirstSeenFacts | app/api/insights/venue/route.ts:109-113 | The object's key order lists every key seen, exactly once. |
| Tallies.DaySum | app/api/insights/venue/route.ts:107-114 | Every key in the order is in the map, and the entries' counts total the number of records. |
| Tallies.DailyEntries | app/api/insights/venue/route.ts:113-114 | The entries cover each day seen exactly once, with its count, and total the number of records. |
| Tallies.CountPositive | app/api/insights/venue/route.ts:109 | A key has a positive count exactly when it occurs. |
| DayOrder.SortInPlace | app/api/insights/venue/route.ts:115 | The in-place sort leaves the array equal to the stable insertion sort of its old contents. It is used for both comparators. |
| DayOrder.InsertInPlace | app/api/insights/venue/route.ts:115 | Shifting the larger prefix elements right and dropping the key in the gap gives the functional insertion. The rest of the array is unchanged. |
| DayOrder.InsertAt | app/api/insights/venue/route.ts:115 | Where insertion places an element: after the prefix that may precede it, before the suffix that must follow it. |
| DayOrder.SortPermutes | app/api/insights/venue/route.ts:115 | Sorting is a permutation, so it keeps the total count. |
| DayOrder.DateSortAscends | app/api/insights/venue/route.ts:115 | Sorting entries with distinct dates by the date comparator makes them strictly ascending by date. |
| DayOrder.CountSortRanks | app/api/insights/venue/route.ts:127 | Stably sorting a date-ascending list by `b.count - a.count` gives counts descending, with ties in date order. |
| DayOrder.InsertPermutes | app/api/insights/venue/route.ts:115 | Insertion adds exactly the new element. |
| Peaks.MaxOf | app/api/insights/venue/route.ts:118 | `Math.max` of a non-empty list is one of its elements and is at least every element. |
| Peaks.IndexOf | app/api/insights/venue/route.ts:119 | `indexOf` is -1 exactly when the value is absent. Otherwise it is the first index holding the value. |
| Peaks.PeakHour | app/api/insights/venue/route.ts:118-119 | The first slot holding the maximum: a maximum, with every earlier slot strictly smaller. |
| Lex.LexCompareMeaning | app/api/insights/venue/route.ts:115 | The date comparator is negative, positive or zero exactly when the first date is before the second, after it, or equal to it. |
| Lex.LexTransitive | app/api/insights/venue/route.ts:115 | Date order is transitive. |
| Lex.LexAsymmetric | app/api/insights/venue/route.ts:115 | Date order is asymmetric. |
| Lex.LexTotal | app/api/insights/venue/route.ts:115 | Any two different dates are ordered one way or the other. |

## Left out

- Cookie handling and client construction (lines 7-31): these are framework plumbing. Their only effect is the `Backend` the model takes as a parameter.
- The 30-day window (lines 69-76): the handler reads the clock and passes its ISO value to the query's `gte` filter. Both the clock reading and the filter are absorbed into `Backend.connectionsAt`, which returns the rows the filtered query would return.
- Date parsing, `getHours` in the server's time zone, and the UTC day key of `toISOString`: these are parameters (`DateLib`). An Invalid Date is a parse that gives None. The model does not cover years outside 0000-9999, whose ISO strings are not ten characters long.
- `localeCompare`: modelled as code-point order. On ten-character `YYYY-MM-DD` keys made of digits and hyphens this agrees with locale collation. The model does not restate the collation rules.
- The stable `Array.prototype.sort`: modelled by insertion sort, which is stable. Both comparators are consistent, so a stable sort's result is fixed by the comparator.
- `retentionRate` (line 126): a constant placeholder that nothing depends on.
- Error strings: the 401, 403, 400 and 500 replies carry their kind and status, not their JSON error text. The `insufficient_data` reply does carry its message (line 88).
- Console logging (lines 37, 79, 131): this is output only.
- Exceptions other than the Invalid Date one at `toISOString`, such as a thrown client call: the model does not produce them, though they would also end in the 500 of line 132.
- `venue_id` metadata that is not a string: the model assumes the metadata value is a string or absent.
- Other routes and pages of the application: they are not part of this model.
