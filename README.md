# Cycle tracker core, modelled in Dafny

This project models the logic of the `CycleTracker` React component and its
`SupabaseService` helper (`src/App.js`). The component records menstrual cycles
(start and end date, flow, symptoms, premenstrual symptoms, notes). It keeps
them in a collection ordered by start date. It writes through to a Supabase
table when one is configured and the device is online. It mirrors the
collection to the browser's local storage and derives trend statistics and an
irregularity warning.

Modules, one per concern of the component:

- `Wrappers`: `Option`, for `null` columns, empty date inputs and an absent cache key.
- `Days`: dates as day numbers. `calculateCycleLength` and
  `calculateDaysBetweenCycles` are written with the millisecond difference and
  `Math.ceil`, and are proved to equal `end - start + 1` and
  `nextStart - prevEnd - 1`.
- `Records`: identifiers (a number or a string), `id.toString()`, the
  `startsWith('temp_')` test, the saved entry, the collection record
  (`_isPending` is the `pending` flag), and the add/edit form.
- `Remote`: the renaming between camelCase fields and snake_case columns, and
  the read-side defaults (`flow || 'normal'`, `symptoms || []`, `notes || ''`,
  `length || calculateLength(...)`) with JavaScript truthiness.
- `Ordering`: the stable sort by start date. It is an insertion sort proved
  sorted, a permutation and stable. It is also proved to be the only possible
  result of any stable sort.
- `Collection`: the map-by-id and filter-by-id steps of update and delete.
- `Statistics`: `stats`, `chartData` and the irregularity test. Averages are
  kept exact, as a total and a count, instead of the rounded strings.
- `Symptoms`: the check-box handlers.
- `Tracker`: class `CycleTracker`. It holds `cycles`, the local-storage
  snapshot `cache`, the two connectivity booleans and the error banner. Its
  methods `LoadCycles`, `AddCycle`, `UpdateCycle` and `DeleteCycle` take each
  remote call's outcome as a parameter.

The model follows the code as written:

- A failed remote insert, update or delete only sets the error banner. The
  collection and the cache stay as they were. There is no local fallback.
- Only `addCycle`'s local path sets `_isPending`. That path is taken when the
  remote store is unusable: not configured, or the device offline. So the
  flag is always true there.
- Records are eligible for a remote update or delete unless their id starts
  with `temp_`. Locally created records have numeric `Date.now()` ids, so the
  test never excludes them (`Records.NumericIdNeverTemp`).
- `loadCycles` does not sort. It takes the fetched rows or the cached snapshot
  in the order given.
- A successful delete leaves the error banner unchanged, because `deleteCycle`
  never clears it.
- The record returned by the remote insert gets no default for `flow` or
  `length`.
- The load at start-up never reads the remote store (see "## Findings").

## Model

| member | source | states |
|---|---|---|
| `Days.CeilDiv` | src/App.js:232 | `Math.ceil(a / b)` is the least multiple count covering `a`: `b*(r-1) < a <= b*r` |
| `Days.CycleLength` | src/App.js:229-233 | the ceil of the millisecond difference plus one is exactly `end - start + 1` days |
| `Days.DaysBetween` | src/App.js:235-239 | the ceil of the millisecond difference minus one is exactly `nextStart - prevEnd - 1` days |
| `Days.LengthAtLeastOneDay` | src/App.js:110-114 | a length is at least 1 iff the end is not before the start, and exactly 1 iff both are the same day |
| `Days.JanuaryExample` | src/App.js:229-239 | Jan 1 to Jan 5 lasts 5 days; from an end on Jan 5 to a start on Jan 10 there are 4 days |
| `Days.GapPlusLength` | src/App.js:229-239 | the gap before a cycle plus the cycle's length is the number of days from the previous end to this end, the sum the chart plots |
| `Records.NatToString` | src/App.js:346 | the decimal rendering of a number is non-empty and made of digits |
| `Records.IdString` | src/App.js:346 | a numeric id renders as a non-empty string that starts with `-` iff the number is negative, followed by digits only |
| `Records.NumericIdNeverTemp` | src/App.js:386 | no numeric id passes `toString().startsWith('temp_')`, including the `Date.now()` ids of local records |
| `Records.IsTempId` | src/App.js:346 | no contract of its own: the test as written; `Records.NumericIdNeverTemp` and `Records.TextIdTemp` state which ids pass it |
| `Records.TextIdTemp` | src/App.js:346 | a string id passes the test iff it begins with `temp_` |
| `Records.EntryOf` | src/App.js:262-263 | the saved entry copies the form's fields and recomputes the length from the dates |
| `Records.FormOf` | src/App.js:312-321 | editing a record fills in both dates of the form |
| `Records.EditRoundTrip` | src/App.js:343-344 | opening a record in the form and saving it unchanged gives back its data when its length matches its dates |
| `Remote.ToPayload` | src/App.js:40-48 | no contract of its own: the camelCase-to-snake_case renaming, also used at lines 74-82; `Remote.FetchRoundTrip` and `Remote.CreateRoundTrip` state what survives a write and a read |
| `Remote.FromFetchedRow` | src/App.js:27-36 | a fetched record keeps the row's id, is not pending, never has an empty flow, and has length 0 only when its dates give 0 |
| `Remote.FromCreatedRow` | src/App.js:61-70 | the inserted record keeps the row's id and dates and is not pending; a present flow and length are copied verbatim, even when falsy; a missing symptom or premenstrual list becomes `[]` and missing notes `""`, and present ones are kept |
| `Remote.FromFetchedRows` | src/App.js:27-36 | the fetch maps every row, one record per row, in the order received |
| `Remote.FetchedDefaults` | src/App.js:31-35 | fetched rows get flow `normal`, empty symptom lists, empty notes and a recomputed length when those are missing or falsy, and keep present values |
| `Remote.FetchRoundTrip` | src/App.js:40-48 | sending an entry and fetching it back yields it iff its flow is non-empty and its length is non-zero or zero by its dates |
| `Remote.CreateRoundTrip` | src/App.js:61-70 | the insert response for a stored entry maps back to that entry under the store's key |
| `Ordering.Insert` | src/App.js:268 | insertion adds exactly one record: the result is the old records plus the new one |
| `Ordering.InsertSorted` | src/App.js:268 | inserting into a list sorted by start date keeps it sorted |
| `Ordering.SortByStart` | src/App.js:279 | the sort yields a list ascending by start date that is a permutation of its input |
| `Ordering.InsertStable` | src/App.js:352 | an inserted record goes before the records with its start date |
| `Ordering.SortStable` | src/App.js:268 | for every start date, the records having it keep their relative order |
| `Ordering.AppendThenSort` | src/App.js:279 | after append-then-sort, the new record comes after older records with the same start date |
| `Ordering.StableSortUnique` | src/App.js:352 | two lists sorted by start date that agree date by date are equal, so a stable sort has one result |
| `Ordering.WithStartAppend` | src/App.js:268 | the records with a given start date in a concatenation are those of each part |
| `Ordering.WithStartNonEmpty` | src/App.js:279 | some record has a start date iff the records with that date are not none |
| `Collection.ReplaceById` | src/App.js:350-351 | the map keeps the count; position by position, a record with the id becomes the edited one and others stay |
| `Collection.ReplaceByIdCounts` | src/App.js:351 | records with another id are kept with their multiplicity |
| `Collection.ReplaceByIdOnlyEdited` | src/App.js:351 | after the map, every record carrying the id is the edited one |
| `Collection.ReplaceKeepsIds` | src/App.js:350 | replacing with a record carrying the same id keeps every position's id |
| `Collection.RemoveById` | src/App.js:390 | the filter never lengthens the collection and no survivor carries the id |
| `Collection.RemoveByIdCounts` | src/App.js:390 | the filter drops every record with the id and keeps every other record with its multiplicity |
| `Collection.RemoveByIdAppend` | src/App.js:390 | filtering a concatenation filters each part, so survivors keep their order |
| `Collection.RemoveByIdSorted` | src/App.js:391 | filtering a sorted collection leaves it sorted |
| `Collection.RemoveAbsentId` | src/App.js:378 | deleting an id no record has changes nothing |
| `Statistics.Sum` | src/App.js:442 | the sum of one value is that value, and a sum of non-negative values is non-negative; `Statistics.SumBounds` bounds it |
| `Statistics.Lengths` | src/App.js:437 | one length per cycle, in the collection's order |
| `Statistics.Max` | src/App.js:445 | `Math.max` is an element no smaller than any other |
| `Statistics.Min` | src/App.js:446 | `Math.min` is an element no larger than any other |
| `Statistics.Intervals` | src/App.js:438-440 | n cycles give n−1 intervals, the i-th being the next start minus this end minus one |
| `Statistics.ComputeStats` | src/App.js:434-455 | no statistics iff the collection is empty; otherwise the average length is the sum of the n lengths over n, the average interval the sum of the n−1 intervals over n−1, both variations ≥ 0, total = n |
| `Statistics.AverageIntervalBetweenExtremes` | src/App.js:443 | with at least two cycles the total of the n−1 intervals lies between n−1 times the shortest and n−1 times the longest |
| `Statistics.SingleCycleStats` | src/App.js:443 | with one cycle the average interval and its variation are 0 and the average length is that cycle's length |
| `Statistics.SpreadIsLargestDifference` | src/App.js:445-446 | max − min exceeds a bound iff two values differ by more than it |
| `Statistics.LengthSpread` | src/App.js:445 | the length variation exceeds a bound iff two cycle lengths differ by more than it |
| `Statistics.IntervalVariationIsSpread` | src/App.js:446 | the interval variation is the largest minus the smallest interval, and 0 with a single cycle |
| `Statistics.IntervalSpread` | src/App.js:446 | with two or more cycles the spread of the intervals exceeds a bound iff two intervals differ by more than it |
| `Statistics.GapSpread` | src/App.js:446 | the interval variation exceeds a non-negative bound iff two intervals differ by more than it |
| `Statistics.IsIrregular` | src/App.js:580 | the warning needs statistics; `Statistics.IrregularIff` states exactly when it shows |
| `Statistics.IrregularIff` | src/App.js:580 | the warning shows iff two lengths differ by more than 7 days or two intervals by more than 10 |
| `Statistics.SumBounds` | src/App.js:442 | a sum lies between the count times a lower and times an upper bound of its values |
| `Statistics.AverageLengthBetweenExtremes` | src/App.js:442 | the average length lies between the shortest and the longest cycle |
| `Statistics.PointAt` | src/App.js:418-432 | point i is numbered i+1, carries the cycle's length, has no interval iff it is the first, otherwise the gap from the previous end, and a total of length plus interval |
| `Statistics.ChartData` | src/App.js:418-432 | one chart point per cycle, in collection order, the i-th being `Statistics.PointAt` of cycle i |
| `Statistics.ChartAgreesWithStats` | src/App.js:418-432 | the first point has no interval; later points carry the statistics' interval and a total of length plus interval |
| `Statistics.ChartTotalSpansEnds` | src/App.js:429 | a point's total length is the days from the previous cycle's end to this one's end |
| `Symptoms.Without` | src/App.js:216 | unchecking removes every occurrence of the symptom and keeps the others with their multiplicity |
| `Symptoms.WithoutAbsent` | src/App.js:225 | unchecking a symptom that is not listed changes nothing |
| `Symptoms.WithoutAppend` | src/App.js:216 | removal distributes over concatenation, so order is kept |
| `Symptoms.Toggle` | src/App.js:214-216 | checking appends the symptom after the unchanged list; unchecking leaves no occurrence and keeps every other symptom's count |
| `Symptoms.CheckThenUncheck` | src/App.js:214-216 | checking then unchecking a symptom that was absent restores the list |
| `Symptoms.WithSymptomToggled` | src/App.js:211-218 | only the symptom list changes: checking appends, unchecking removes all occurrences |
| `Symptoms.WithPreSymptomToggled` | src/App.js:220-227 | only the premenstrual list changes: checking appends, unchecking removes all occurrences |
| `Tracker.AddedCollection` | src/App.js:268-270 | after an add there is one more record, sorted by start, a permutation of old plus new, and ties keep prior order |
| `Tracker.UpdatedCollection` | src/App.js:350-355 | after an update the count is the same, it is sorted, every record with the id is the edited one and others are kept |
| `Tracker.DeletedCollection` | src/App.js:390-392 | after a delete exactly the matching records are gone; for every split of the collection the result is the filtered prefix followed by the filtered suffix, so survivors keep their order; sortedness is kept |
| `Tracker.LocalRecord` | src/App.js:274-278 | the local record has the `Date.now()` id and the entry, and is pending iff the remote store is unusable |
| `Tracker.LocalRecordPendingNotTemp` | src/App.js:274-278 | a record added while the store is unusable is pending and its id never passes the `temp_` test |
| `Tracker.RemoteAddEchoes` | src/App.js:267 | when the insert echoes the payload, the added record is the form's entry under the store's key |
| `Tracker.StartUpExample` | src/App.js:159-170 | a configured, online start with one remote row and no snapshot begins empty as written and with that row as intended |
| `Tracker.CycleTracker.Mount` | src/App.js:118-161 | as written: the configuration flag starts false and the start-up load sees it false, so the collection is the cached snapshot (or empty), the cache mirrors it and the fetched rows are ignored |
| `Tracker.CycleTracker.MountIntended` | src/App.js:159-184 | with the configuration applied before the load: a configured, online start with a successful fetch begins from the fetched rows, mirrored to the cache; a failed fetch keeps the snapshot and reports it |
| `Tracker.CycleTracker.RemoteUsable` | src/App.js:168 | no contract of its own: `supabaseConfigured && isOnline`, the test at lines 168, 265, 346 and 386; the branch clauses of `LoadCycles`, `AddCycle`, `UpdateCycle` and `DeleteCycle` state what each outcome does |
| `Tracker.CycleTracker.SetOnline` | src/App.js:146-147 | the connectivity events set the online flag |
| `Tracker.CycleTracker.LoadCycles` | src/App.js:163-198 | a successful fetch becomes the collection and the cache; otherwise the cached snapshot, if present, becomes the collection; from the initial empty collection the cache mirrors the collection afterwards |
| `Tracker.CycleTracker.AddCycle` | src/App.js:241-310 | missing or misordered dates and a failed insert change nothing; otherwise old plus new record is sorted and saved to the cache, with the local record pending |
| `Tracker.CycleTracker.UpdateCycle` | src/App.js:325-376 | missing fields, misordered dates and a failed remote update change nothing; otherwise records with the id are replaced, the result sorted and cached |
| `Tracker.CycleTracker.DeleteCycle` | src/App.js:378-402 | a cancelled prompt or failed remote delete changes nothing; otherwise matching records are filtered out and the rest cached |

## Left out

- Rendering, charts, icons, the flow colours and labels, and the symptom vocabularies: presentation only.
- `fetch`, URLs, headers and status codes. Each remote call is a parameter: the rows returned, or absent when the call throws.
- The text of error messages, including the appended `err.message`. The banner is an enumeration of causes.
- `localStorage` serialisation and a corrupt snapshot. The cache is a snapshot value. The model does not cover `JSON.parse` throwing, which in `loadCycles` escapes the catch block.
- Reading `process.env` and `navigator.onLine`. They are the mount's `hasConfig` and `online` booleans.
- The `loading` and `success` flags, the `setTimeout` that clears the success message, and the form reset and `isAddingCycle` toggle after a save: interface state.
- Typing into the form. The form's content is a parameter of add and update; `editingCycle` is a parameter of update.
- `exportData`: it only serialises the collection to a download.
- `window.confirm`: it is the `confirmed` parameter of delete.
- The value returned by the service's `updateCycle` and `deleteCycle`. The component ignores both.
- Date strings. Dates are day numbers, so an unparsable date (`NaN` arithmetic) is not modelled.
- The interleaving of asynchronous state updates. Each operation runs to completion against the collection it started from.
- `toFixed(1)` rounding and `toLocaleDateString` chart labels. Averages are exact total/count pairs, and a chart point carries its number, not its label.
- Records.NatToString: does not model JavaScript's exponent notation for numbers of 10^21 and above. `Date.now()` ids are far below that.
- Remote.FromCreatedRow: a `null` flow or length in the insert response becomes `""` and `0`. JavaScript would keep `null`.

## Findings

| source | as written | input that shows it | evidently intended | confidence | as-written member | corrected member |
|---|---|---|---|---|---|---|
| src/App.js:159-161 | `supabaseConfigured` starts `false` (line 125) and is set by an effect (lines 138-142); the mount effect calls `loadCycles` from the first render's closure, where it is still `false`, so the remote branch of `loadCycles` (line 170) never runs at start-up | environment configured, device online, remote store holding one row, local snapshot absent: the component starts empty (`Tracker.StartUpExample`) | the start-up load reads the remote store once it is configured | not executed | `Tracker.CycleTracker.Mount` | `Tracker.CycleTracker.MountIntended` |
