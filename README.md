# Security-event aggregation of the interactive dashboard

This project models `processData`, the routine behind the security-event
dashboard. It takes the list of event records and an optional date window
and walks the events once. Each event that carries an `alert` and whose
timestamp lies in the window bumps five frequency tables: event type, alert
signature, severity, source IP and destination IP. Each of the five counters
is guarded by the truthiness of its own field. The severity table starts
seeded with the keys 1 to 5 at zero; the other four start empty.

Layout:

- `wrappers.dfy`: `Option`, standing for null / undefined.
- `events.dfy` (module `Events`): the event, alert, window and result
  records; the window test `Qualifies` (inclusive bounds, a missing bound is
  unbounded, an unparsable timestamp is inside only the unbounded window);
  the truthy key of each field (`TextOf`, `LevelOf`); the increments
  `(m[k] || 0) + 1` and `m[k] += 1`.
- `counting.dfy` (module `Counting`): the reference answer `Count` (how many
  qualifying events have a given key), `Describes` (five tables holding
  exactly those counts), `Step` (one event's effect), `Fold` (the `forEach`
  accumulation of `Step`, front to back) and `Aggregate` (that fold from the
  seeded tables), and the lemmas.
- `dashboard.dfy` (module `Dashboard`): `ProcessData`, the `forEach` loop
  over five local maps, written with the source's own comparisons and
  guards.

Modelling choices:

- A timestamp is the instant `new Date(timestamp)` denotes, as an
  `Option<int>` of milliseconds; `None` is an invalid Date, against which
  every comparison is false.
- A window bound is an `Option<int>`; `None` is a null or undefined bound
  (the default `filter = {}`, or an emptied date input).
- A string field is truthy when present and non-empty; a severity when
  present and not 0.
- Values in the severity table are `Tally = Num(n) | NaN`. The source bumps
  it with `severities[severity] += 1` and no `|| 0` fallback, so a severity
  outside 1..5 reads `undefined` and stores `undefined + 1`, which is NaN,
  and NaN stays NaN. The model keeps that behaviour.

The one source routine is split by role into three modules: `Events` is the
data model, `Counting` the specification of the counts (with the pure
`Step`/`Fold` description of the loop), and `Dashboard` the imperative loop
itself.

## Model

| member | source | states |
|---|---|---|
| `Dashboard.ProcessData` | Assignment/src/Dashboard.jsx:9-36 | the loop's five maps end equal to `Aggregate` of the events, so each table holds exactly the reference counts (`Describes`) |
| `Counting.FoldSnoc` | Assignment/src/Dashboard.jsx:16-33 | accumulating front to back over `es + [e]` is accumulating over `es` and then one more `Step` for `e` |
| `Counting.AggregateSnoc` | Assignment/src/Dashboard.jsx:16-33 | the result for `es + [e]` is `Step` applied to the result for `es`, the loop invariant of the `forEach` |
| `Counting.FoldDescribes` | Assignment/src/Dashboard.jsx:16-33 | continuing the accumulation from tables that hold the counts of `done` over further events gives the counts of `done` followed by them |
| `Counting.AggregateDescribes` | Assignment/src/Dashboard.jsx:10-33 | processing the events in order leaves every table holding exactly the number of qualifying events with each key, keys present iff the count is positive, seeded severities always present, other severities present iff they occur and then NaN |
| `Counting.StepPreserves` | Assignment/src/Dashboard.jsx:16-33 | one more event turns the tables of a prefix into the tables of the longer list |
| `Counting.InitialDescribesEmpty` | Assignment/src/Dashboard.jsx:10-14 | the initial tables are the aggregation of no events |
| `Counting.EmptyInput` | Assignment/src/Dashboard.jsx:10-14 | with no events the severity table is exactly {1:0, 2:0, 3:0, 4:0, 5:0} and the other four are empty |
| `Counting.StepIsLocal` | Assignment/src/Dashboard.jsx:27-31 | one event changes a string table only at its own truthy key, by exactly one, and only when it qualifies; every other entry is unchanged |
| `Counting.StepIsLocalSeverity` | Assignment/src/Dashboard.jsx:29 | one event changes the severity table only at its own truthy severity: plus one on a number, NaN on a missing key |
| `Events.Incremented` | Assignment/src/Dashboard.jsx:27-31 | the guarded `+ 1` with a missing key read as 0: the key is added, its count read as zero when missing goes up by one, all others stay |
| `Events.IncrementedLevel` | Assignment/src/Dashboard.jsx:29 | `m[k] += 1`: an existing value goes up by one, a missing key becomes NaN, all others stay |
| `Counting.CountAppend` | Assignment/src/Dashboard.jsx:16 | the count over a concatenation is the sum of the counts of the parts |
| `Counting.CountsDetermineResult` | Assignment/src/Dashboard.jsx:35 | two results of event lists with equal counts for every key are equal |
| `Counting.Deterministic` | Assignment/src/Dashboard.jsx:9-36 | two results for the same events and window are equal |
| `Counting.NonQualifyingInvisible` | Assignment/src/Dashboard.jsx:21 | an event that fails the filter changes no count, wherever it stands in the list |
| `Counting.NonQualifyingIgnored` | Assignment/src/Dashboard.jsx:21 | inserting an event that fails the filter leaves all five tables unchanged |
| `Counting.NoAlertIgnored` | Assignment/src/Dashboard.jsx:21 | an event with no alert contributes to none of the five tables, whatever its type and addresses |
| `Counting.UnparsableIgnoredUnderBound` | Assignment/src/Dashboard.jsx:19-21 | an event with an unparsable timestamp contributes nothing once either bound is set |
| `Counting.OutsideWindowIgnored` | Assignment/src/Dashboard.jsx:21 | an event strictly before the start or strictly after the end contributes nothing |
| `Counting.InWindowCounted` | Assignment/src/Dashboard.jsx:21-31 | an alerted event on or between the bounds (or unparsable with no bound) adds one to each key of its own truthy fields and nothing elsewhere, each field independently |
| `Counting.LevelCountsPartition` | Assignment/src/Dashboard.jsx:29 | when every qualifying severity is in 1..5, the counts of 1..5 add up to the number of qualifying events with a truthy severity and every other severity counts zero |
| `Counting.SeveritySum` | Assignment/src/Dashboard.jsx:12-29 | when every qualifying severity is in 1..5, the severity table's keys are exactly 1..5 and its values sum to the number of qualifying events with a truthy severity |
| `Counting.SingleEventExample` | Assignment/src/Dashboard.jsx:9-36 | one alerted event of type "alert", signature "X", severity 3, from 1.1.1.1 to 2.2.2.2, with no window, gives {"alert":1}, {"X":1}, {1:0,2:0,3:1,4:0,5:0}, {"1.1.1.1":1}, {"2.2.2.2":1} |

## Left out

- The `Dashboard` React component (state, effect hook, loading text, JSX layout, styles): user-interface plumbing around the aggregation.
- Chart.js registration and the chart dataset objects built with `Object.keys` / `Object.values`: a charting library and JavaScript key ordering; the model's tables are unordered maps.
- Loading `eve.json`: static data input; the model takes the events as a parameter.
- Date parsing (`new Date(event.timestamp)` and `new Date(value)` in `handleDateChange`): a foreign call, abstracted as an already-parsed `Option<int>`. Of `handleDateChange` the model keeps only that an empty input gives a null (unbounded) bound, which is `None`.
- A window bound that is itself an invalid Date (truthy, and never compared true) is not representable: bounds are `Option<int>`.
- Field values of other JavaScript types (a numeric event type, a fractional or string severity, a NaN severity) and the coercion of object keys to strings: fields are typed as strings and integers.
- Keys that collide with `Object.prototype` properties (such as `constructor`), for which `m[k] || 0` reads an inherited value: the model's maps start empty.
- A null or undefined element of the event list, on which reading `event.event_type` throws a TypeError: a `seq<Event>` cannot hold one.
- Counts are unbounded `nat`; a JavaScript number stops growing at 2^53, where `x + 1 == x`.
