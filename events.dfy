/**
 * The records the dashboard aggregates: security events, their alerts,
 * the date window, and the five frequency tables the aggregation returns.
 */
module Events {
  import opened Wrappers

  /** The `alert` sub-record: the matched detection signature and its severity. */
  datatype Alert = Alert(signature: Option<string>, severity: Option<int>)

  /**
   * One event record. `timestamp` is the instant (milliseconds since the
   * epoch) that `new Date(event.timestamp)` yields, or None when that is an
   * invalid Date. Absent fields are None.
   */
  datatype Event = Event(
    eventType: Option<string>,
    srcIp: Option<string>,
    destIp: Option<string>,
    timestamp: Option<int>,
    alert: Option<Alert>)

  /** The date window; a None bound is a null or undefined one (no limit). */
  datatype DateFilter = DateFilter(startDate: Option<int>, endDate: Option<int>)

  /** The default `filter = {}`: neither bound set. */
  const NoFilter := DateFilter(None, None)

  /**
   * The window is inclusive at both ends and unbounded where a bound is
   * missing. An unparsable timestamp lies in the window only when neither
   * bound is set, since every comparison with an invalid Date is false.
   */
  predicate InWindow(t: Option<int>, f: DateFilter) {
    match t
    case None => f.startDate.None? && f.endDate.None?
    case Some(instant) =>
      && (f.startDate.None? || f.startDate.value <= instant)
      && (f.endDate.None? || instant <= f.endDate.value)
  }

  /** An event contributes to the tables only if it has an alert and lies in the window. */
  predicate Qualifies(e: Event, f: DateFilter) {
    e.alert.Some? && InWindow(e.timestamp, f)
  }

  /** A string field as a truthy key: present and non-empty. */
  function TruthyText(s: Option<string>): Option<string> {
    if s.Some? && s.value != "" then s else None
  }

  /** A severity as a truthy key: present and not zero. */
  function TruthyLevel(n: Option<int>): Option<int> {
    if n.Some? && n.value != 0 then n else None
  }

  /** The four tables keyed by strings. */
  datatype Column = EventType | Signature | SrcIp | DestIp

  /** The key an event's counter in column `c` is bumped under, or None when that field is falsy. */
  function TextOf(e: Event, c: Column): Option<string> {
    match c
    case EventType => TruthyText(e.eventType)
    case Signature => if e.alert.Some? then TruthyText(e.alert.value.signature) else None
    case SrcIp => TruthyText(e.srcIp)
    case DestIp => TruthyText(e.destIp)
  }

  /** The key an event's severity counter is bumped under, or None when the severity is falsy. */
  function LevelOf(e: Event): Option<int> {
    if e.alert.Some? then TruthyLevel(e.alert.value.severity) else None
  }

  /** A key of one of the five tables. */
  datatype Key = Label(column: Column, text: string) | Level(level: int)

  /** Whether the event's own key for the table of `k` is `k`. */
  predicate Matches(e: Event, k: Key) {
    match k
    case Label(c, s) => TextOf(e, c) == Some(s)
    case Level(n) => LevelOf(e) == Some(n)
  }

  /**
   * A number stored in the severity table. Adding one to a key the seeded
   * table lacks reads `undefined`, and `undefined + 1` is NaN; NaN stays NaN.
   */
  datatype Tally = Num(n: nat) | NaN

  function PlusOne(t: Tally): Tally {
    match t
    case Num(n) => Num(n + 1)
    case NaN => NaN
  }

  /** The five tables `processData` returns. */
  datatype Aggregation = Aggregation(
    eventTypes: map<string, nat>,
    signatures: map<string, nat>,
    severities: map<int, Tally>,
    srcIps: map<string, nat>,
    destIps: map<string, nat>)

  function Table(r: Aggregation, c: Column): map<string, nat> {
    match c
    case EventType => r.eventTypes
    case Signature => r.signatures
    case SrcIp => r.srcIps
    case DestIp => r.destIps
  }

  /** The severity table starts with keys 1 to 5 at zero. */
  const SeededSeverities: map<int, Tally> := map[1 := Num(0), 2 := Num(0), 3 := Num(0), 4 := Num(0), 5 := Num(0)]

  /** The tables before any event is processed. */
  const Initial := Aggregation(map[], map[], SeededSeverities, map[], map[])

  /** The count stored under `s`, with a missing key read as zero (`m[s] || 0`). */
  function Lookup(m: map<string, nat>, s: string): nat {
    if s in m then m[s] else 0
  }

  /** `m[s] = (m[s] || 0) + 1` */
  function Incremented(m: map<string, nat>, s: string): (r: map<string, nat>)
    ensures r.Keys == m.Keys + {s}
    ensures forall t :: Lookup(r, t) == Lookup(m, t) + (if t == s then 1 else 0)
  {
    m[s := Lookup(m, s) + 1]
  }

  /** `m[n] += 1`, where a missing key reads undefined and so becomes NaN */
  function IncrementedLevel(m: map<int, Tally>, n: int): (r: map<int, Tally>)
    ensures r.Keys == m.Keys + {n}
    ensures forall j :: j in m && j != n ==> r[j] == m[j]
    ensures n in m ==> r[n] == PlusOne(m[n])
    ensures n !in m ==> r[n] == NaN
  {
    m[n := if n in m then PlusOne(m[n]) else NaN]
  }
}
