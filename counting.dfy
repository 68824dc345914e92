/**
 * The reference answer for `processData`: how often each key occurs among
 * the qualifying events, what it means for five tables to hold exactly those
 * counts, the effect of one event on the tables, and the properties the
 * aggregation promises.
 */
module Counting {
  import opened Wrappers
  import opened Events

  /** 1 when `e` qualifies under `f` and its own key for the table of `k` is `k`, else 0. */
  function Hit(e: Event, f: DateFilter, k: Key): nat {
    if Qualifies(e, f) && Matches(e, k) then 1 else 0
  }

  /** The number of qualifying events in `es` whose key for the table of `k` is `k`. */
  function Count(es: seq<Event>, f: DateFilter, k: Key): (r: nat)
    ensures r <= |es|
  {
    if es == [] then 0 else Hit(es[0], f, k) + Count(es[1..], f, k)
  }

  /** The number of qualifying events whose severity is truthy. */
  function RatedCount(es: seq<Event>, f: DateFilter): (r: nat)
    ensures r <= |es|
  {
    if es == [] then 0
    else (if Qualifies(es[0], f) && LevelOf(es[0]).Some? then 1 else 0) + RatedCount(es[1..], f)
  }

  /** Counting distributes over concatenation. */
  lemma {:induction false} CountAppend(a: seq<Event>, b: seq<Event>, f: DateFilter, k: Key)
    ensures Count(a + b, f, k) == Count(a, f, k) + Count(b, f, k)
  {
    if a == [] {
      assert a + b == b;
    } else {
      assert (a + b)[0] == a[0];
      assert (a + b)[1..] == a[1..] + b;
      CountAppend(a[1..], b, f, k);
    }
  }

  /** Appending one event adds exactly its own hit to every count. */
  lemma CountSnoc(es: seq<Event>, e: Event, f: DateFilter, k: Key)
    ensures Count(es + [e], f, k) == Count(es, f, k) + Hit(e, f, k)
  {
    CountAppend(es, [e], f, k);
    assert [e][1..] == [];
  }

  /** A string-keyed table holds a key iff the key occurs, and then holds its count. */
  ghost predicate TextTable(m: map<string, nat>, es: seq<Event>, f: DateFilter, c: Column) {
    && (forall s :: s in m <==> Count(es, f, Label(c, s)) > 0)
    && (forall s :: s in m ==> m[s] == Count(es, f, Label(c, s)))
  }

  /**
   * The severity table holds the seeded keys 1 to 5 with their counts, and
   * every other severity that occurs, with the value NaN.
   */
  ghost predicate SeverityTable(m: map<int, Tally>, es: seq<Event>, f: DateFilter) {
    && (forall n :: n in m <==> (1 <= n <= 5 || Count(es, f, Level(n)) > 0))
    && (forall n :: n in m ==> m[n] == if 1 <= n <= 5 then Num(Count(es, f, Level(n))) else NaN)
  }

  /** `r` is the aggregation of `es` under `f`. */
  ghost predicate Describes(r: Aggregation, es: seq<Event>, f: DateFilter) {
    && TextTable(r.eventTypes, es, f, EventType)
    && TextTable(r.signatures, es, f, Signature)
    && SeverityTable(r.severities, es, f)
    && TextTable(r.srcIps, es, f, SrcIp)
    && TextTable(r.destIps, es, f, DestIp)
  }

  /** A guarded increment: nothing happens when the key is falsy. */
  function BumpText(m: map<string, nat>, k: Option<string>): map<string, nat> {
    if k.Some? then Incremented(m, k.value) else m
  }

  function BumpLevel(m: map<int, Tally>, k: Option<int>): map<int, Tally> {
    if k.Some? then IncrementedLevel(m, k.value) else m
  }

  /** The effect of one pass of the loop body on the five tables. */
  function Step(r: Aggregation, e: Event, f: DateFilter): Aggregation {
    if !Qualifies(e, f) then r
    else Aggregation(
      BumpText(r.eventTypes, TextOf(e, EventType)),
      BumpText(r.signatures, TextOf(e, Signature)),
      BumpLevel(r.severities, LevelOf(e)),
      BumpText(r.srcIps, TextOf(e, SrcIp)),
      BumpText(r.destIps, TextOf(e, DestIp)))
  }

  /** The `forEach` accumulation: apply `Step` to `acc` for each event, front to back. */
  function Fold(acc: Aggregation, es: seq<Event>, f: DateFilter): Aggregation
    decreases |es|
  {
    if es == [] then acc else Fold(Step(acc, es[0], f), es[1..], f)
  }

  /** The tables after processing `es` in order, starting from the seeded ones. */
  function Aggregate(es: seq<Event>, f: DateFilter): Aggregation {
    Fold(Initial, es, f)
  }

  /** Folding over one more event is one more `Step` at the end. */
  lemma {:induction false} FoldSnoc(acc: Aggregation, es: seq<Event>, e: Event, f: DateFilter)
    ensures Fold(acc, es + [e], f) == Step(Fold(acc, es, f), e, f)
    decreases |es|
  {
    if es == [] {
      assert [] + [e] == [e];
      assert [e][1..] == [];
    } else {
      assert (es + [e])[0] == es[0];
      assert (es + [e])[1..] == es[1..] + [e];
      FoldSnoc(Step(acc, es[0], f), es[1..], e, f);
    }
  }

  /** Loop invariant: the result for `es + [e]` is `Step` applied to the result for `es`. */
  lemma AggregateSnoc(es: seq<Event>, e: Event, f: DateFilter)
    ensures Aggregate(es + [e], f) == Step(Aggregate(es, f), e, f)
  {
    FoldSnoc(Initial, es, e, f);
  }

  /** The tables before the loop are the aggregation of no events. */
  lemma InitialDescribesEmpty(f: DateFilter)
    ensures Describes(Initial, [], f)
  {
  }

  /** One event, qualifying or not, carries a string table of a prefix to the longer list. */
  lemma TextTableStep(m: map<string, nat>, es: seq<Event>, e: Event, f: DateFilter, c: Column)
    requires TextTable(m, es, f, c)
    ensures TextTable(if Qualifies(e, f) then BumpText(m, TextOf(e, c)) else m, es + [e], f, c)
  {
    forall s {
      CountSnoc(es, e, f, Label(c, s));
    }
  }

  /** The same for the severity table. */
  lemma SeverityTableStep(m: map<int, Tally>, es: seq<Event>, e: Event, f: DateFilter)
    requires SeverityTable(m, es, f)
    ensures SeverityTable(if Qualifies(e, f) then BumpLevel(m, LevelOf(e)) else m, es + [e], f)
  {
    forall n {
      CountSnoc(es, e, f, Level(n));
    }
  }

  /** Loop invariant: processing one more event extends the aggregation by that event. */
  lemma StepPreserves(r: Aggregation, es: seq<Event>, e: Event, f: DateFilter)
    requires Describes(r, es, f)
    ensures Describes(Step(r, e, f), es + [e], f)
  {
    TextTableStep(r.eventTypes, es, e, f, EventType);
    TextTableStep(r.signatures, es, e, f, Signature);
    SeverityTableStep(r.severities, es, e, f);
    TextTableStep(r.srcIps, es, e, f, SrcIp);
    TextTableStep(r.destIps, es, e, f, DestIp);
  }

  /** Folding further events from tables describing `done` describes `done` followed by them. */
  lemma {:induction false} FoldDescribes(acc: Aggregation, done: seq<Event>, es: seq<Event>, f: DateFilter)
    requires Describes(acc, done, f)
    ensures Describes(Fold(acc, es, f), done + es, f)
    decreases |es|
  {
    if es == [] {
      assert done + es == done;
    } else {
      StepPreserves(acc, done, es[0], f);
      FoldDescribes(Step(acc, es[0], f), done + [es[0]], es[1..], f);
      assert done + [es[0]] + es[1..] == done + es;
    }
  }

  /** The fold of `Step` over the events holds exactly the reference counts. */
  lemma AggregateDescribes(es: seq<Event>, f: DateFilter)
    ensures Describes(Aggregate(es, f), es, f)
  {
    InitialDescribesEmpty(f);
    FoldDescribes(Initial, [], es, f);
    assert [] + es == es;
  }

  /**
   * One event changes a string-keyed table only at its own key, by exactly
   * one, and only when it qualifies; a falsy field leaves its own table
   * alone whatever the other fields hold.
   */
  lemma StepIsLocal(r: Aggregation, e: Event, f: DateFilter, c: Column, s: string)
    ensures Lookup(Table(Step(r, e, f), c), s) == Lookup(Table(r, c), s) + Hit(e, f, Label(c, s))
    ensures s in Table(Step(r, e, f), c) <==> s in Table(r, c) || Hit(e, f, Label(c, s)) == 1
  {
  }

  /** The same for the severity table, where a key outside the seeded ones becomes NaN. */
  lemma StepIsLocalSeverity(r: Aggregation, e: Event, f: DateFilter, n: int)
    ensures Hit(e, f, Level(n)) == 0 ==>
      (n in Step(r, e, f).severities <==> n in r.severities) &&
      (n in r.severities ==> Step(r, e, f).severities[n] == r.severities[n])
    ensures Hit(e, f, Level(n)) == 1 ==>
      n in Step(r, e, f).severities &&
      Step(r, e, f).severities[n] == if n in r.severities then PlusOne(r.severities[n]) else NaN
  {
  }

  /** A string table is determined by the counts it describes. */
  lemma TextTablesAgree(m1: map<string, nat>, es1: seq<Event>, m2: map<string, nat>, es2: seq<Event>, f: DateFilter, c: Column)
    requires TextTable(m1, es1, f, c) && TextTable(m2, es2, f, c)
    requires forall s :: Count(es1, f, Label(c, s)) == Count(es2, f, Label(c, s))
    ensures m1 == m2
  {
  }

  /** So is the severity table. */
  lemma SeverityTablesAgree(m1: map<int, Tally>, es1: seq<Event>, m2: map<int, Tally>, es2: seq<Event>, f: DateFilter)
    requires SeverityTable(m1, es1, f) && SeverityTable(m2, es2, f)
    requires forall n :: Count(es1, f, Level(n)) == Count(es2, f, Level(n))
    ensures m1 == m2
  {
    forall n ensures (n in m1 <==> n in m2) && (n in m1 ==> m1[n] == m2[n]) {
      assert Count(es1, f, Level(n)) == Count(es2, f, Level(n));
    }
    assert m1.Keys == m2.Keys;
  }

  /** Two aggregations of event lists with the same counts are equal. */
  lemma CountsDetermineResult(r1: Aggregation, es1: seq<Event>, r2: Aggregation, es2: seq<Event>, f: DateFilter)
    requires Describes(r1, es1, f) && Describes(r2, es2, f)
    requires forall k :: Count(es1, f, k) == Count(es2, f, k)
    ensures r1 == r2
  {
    TextTablesAgree(r1.eventTypes, es1, r2.eventTypes, es2, f, EventType);
    TextTablesAgree(r1.signatures, es1, r2.signatures, es2, f, Signature);
    SeverityTablesAgree(r1.severities, es1, r2.severities, es2, f);
    TextTablesAgree(r1.srcIps, es1, r2.srcIps, es2, f, SrcIp);
    TextTablesAgree(r1.destIps, es1, r2.destIps, es2, f, DestIp);
  }

  /** The aggregation is a function of its inputs: aggregating twice gives equal tables. */
  lemma Deterministic(r1: Aggregation, r2: Aggregation, es: seq<Event>, f: DateFilter)
    requires Describes(r1, es, f) && Describes(r2, es, f)
    ensures r1 == r2
  {
    CountsDetermineResult(r1, es, r2, es, f);
  }

  /** No events: severities are exactly 1 to 5 at zero and the other tables are empty. */
  lemma EmptyInput(r: Aggregation, f: DateFilter)
    requires Describes(r, [], f)
    ensures r.severities == map[1 := Num(0), 2 := Num(0), 3 := Num(0), 4 := Num(0), 5 := Num(0)]
    ensures r.eventTypes == map[] && r.signatures == map[] && r.srcIps == map[] && r.destIps == map[]
  {
    InitialDescribesEmpty(f);
    Deterministic(r, Initial, [], f);
  }

  /** A non-qualifying event, wherever it stands, changes no count. */
  lemma NonQualifyingInvisible(a: seq<Event>, e: Event, b: seq<Event>, f: DateFilter)
    requires !Qualifies(e, f)
    ensures forall k :: Count(a + [e] + b, f, k) == Count(a + b, f, k)
  {
    forall k ensures Count(a + [e] + b, f, k) == Count(a + b, f, k) {
      CountAppend(a + [e], b, f, k);
      CountSnoc(a, e, f, k);
      CountAppend(a, b, f, k);
    }
  }

  /** A non-qualifying event contributes to none of the five tables. */
  lemma NonQualifyingIgnored(r1: Aggregation, r2: Aggregation, a: seq<Event>, e: Event, b: seq<Event>, f: DateFilter)
    requires !Qualifies(e, f)
    requires Describes(r1, a + [e] + b, f) && Describes(r2, a + b, f)
    ensures r1 == r2
  {
    NonQualifyingInvisible(a, e, b, f);
    CountsDetermineResult(r1, a + [e] + b, r2, a + b, f);
  }

  /** An event without an alert counts nowhere, whatever its type and addresses. */
  lemma NoAlertIgnored(r1: Aggregation, r2: Aggregation, a: seq<Event>, e: Event, b: seq<Event>, f: DateFilter)
    requires e.alert.None?
    requires Describes(r1, a + [e] + b, f) && Describes(r2, a + b, f)
    ensures r1 == r2
  {
    NonQualifyingIgnored(r1, r2, a, e, b, f);
  }

  /** An event whose timestamp does not parse counts nowhere once either bound is set. */
  lemma UnparsableIgnoredUnderBound(r1: Aggregation, r2: Aggregation, a: seq<Event>, e: Event, b: seq<Event>, f: DateFilter)
    requires e.timestamp.None? && (f.startDate.Some? || f.endDate.Some?)
    requires Describes(r1, a + [e] + b, f) && Describes(r2, a + b, f)
    ensures r1 == r2
  {
    NonQualifyingIgnored(r1, r2, a, e, b, f);
  }

  /** An event strictly before the start or strictly after the end counts nowhere. */
  lemma OutsideWindowIgnored(r1: Aggregation, r2: Aggregation, a: seq<Event>, e: Event, b: seq<Event>, f: DateFilter)
    requires e.timestamp.Some?
    requires (f.startDate.Some? && e.timestamp.value < f.startDate.value) ||
             (f.endDate.Some? && e.timestamp.value > f.endDate.value)
    requires Describes(r1, a + [e] + b, f) && Describes(r2, a + b, f)
    ensures r1 == r2
  {
    NonQualifyingIgnored(r1, r2, a, e, b, f);
  }

  /**
   * An alerted event whose instant lies between the bounds, both included
   * (or whose timestamp does not parse while no bound is set), adds one to
   * every key it has and nothing to any other key: each counter depends on
   * its own field only.
   */
  lemma InWindowCounted(a: seq<Event>, e: Event, b: seq<Event>, f: DateFilter)
    requires e.alert.Some?
    requires e.timestamp.None? ==> f.startDate.None? && f.endDate.None?
    requires e.timestamp.Some? ==> (f.startDate.None? || f.startDate.value <= e.timestamp.value)
    requires e.timestamp.Some? ==> (f.endDate.None? || e.timestamp.value <= f.endDate.value)
    ensures forall k :: Count(a + [e] + b, f, k) == Count(a + b, f, k) + (if Matches(e, k) then 1 else 0)
  {
    forall k ensures Count(a + [e] + b, f, k) == Count(a + b, f, k) + (if Matches(e, k) then 1 else 0) {
      CountAppend(a + [e], b, f, k);
      CountSnoc(a, e, f, k);
      CountAppend(a, b, f, k);
    }
  }

  /** Every qualifying truthy severity is one of the seeded keys 1 to 5. */
  ghost predicate RatedInRange(es: seq<Event>, f: DateFilter) {
    forall i :: 0 <= i < |es| && Qualifies(es[i], f) && LevelOf(es[i]).Some? ==> 1 <= LevelOf(es[i]).value <= 5
  }

  /** The value under a seeded key, read as zero unless it is a number. */
  function Tallied(m: map<int, Tally>, n: int): nat {
    if n in m && m[n].Num? then m[n].n else 0
  }

  /** The sum of the values under the seeded keys 1 to 5. */
  function SeverityTotal(m: map<int, Tally>): nat {
    Tallied(m, 1) + Tallied(m, 2) + Tallied(m, 3) + Tallied(m, 4) + Tallied(m, 5)
  }

  /** With every qualifying severity seeded, the counts of 1 to 5 partition the rated events. */
  lemma {:induction false} LevelCountsPartition(es: seq<Event>, f: DateFilter)
    requires RatedInRange(es, f)
    ensures Count(es, f, Level(1)) + Count(es, f, Level(2)) + Count(es, f, Level(3))
          + Count(es, f, Level(4)) + Count(es, f, Level(5)) == RatedCount(es, f)
    ensures forall n :: !(1 <= n <= 5) ==> Count(es, f, Level(n)) == 0
  {
    if es != [] {
      assert RatedInRange(es[1..], f) by {
        forall i | 0 <= i < |es[1..]| && Qualifies(es[1..][i], f) && LevelOf(es[1..][i]).Some?
          ensures 1 <= LevelOf(es[1..][i]).value <= 5
        {
          assert es[1..][i] == es[i + 1];
        }
      }
      LevelCountsPartition(es[1..], f);
      assert Qualifies(es[0], f) && LevelOf(es[0]).Some? ==> 1 <= LevelOf(es[0]).value <= 5;
    }
  }

  /**
   * When every qualifying severity is seeded, the severity table keeps
   * exactly the keys 1 to 5, and its values add up to the number of
   * qualifying events with a truthy severity.
   */
  lemma SeveritySum(r: Aggregation, es: seq<Event>, f: DateFilter)
    requires Describes(r, es, f) && RatedInRange(es, f)
    ensures r.severities.Keys == {1, 2, 3, 4, 5}
    ensures SeverityTotal(r.severities) == RatedCount(es, f)
  {
    LevelCountsPartition(es, f);
    forall n ensures n in r.severities <==> n in {1, 2, 3, 4, 5} {
      if !(1 <= n <= 5) {
        assert Count(es, f, Level(n)) == 0;
      }
    }
  }

  /** The event of the worked example: an alert of signature "X", severity 3, at 2023-01-01T00:00:00Z. */
  const ExampleEvent := Event(Some("alert"), Some("1.1.1.1"), Some("2.2.2.2"), Some(1672531200000), Some(Alert(Some("X"), Some(3))))

  /** The tables the worked example should produce. */
  const ExampleResult := Aggregation(
    map["alert" := 1], map["X" := 1],
    map[1 := Num(0), 2 := Num(0), 3 := Num(1), 4 := Num(0), 5 := Num(0)],
    map["1.1.1.1" := 1], map["2.2.2.2" := 1])

  /** The worked example's tables are one step from the initial ones. */
  lemma ExampleIsOneStep()
    ensures Describes(ExampleResult, [ExampleEvent], NoFilter)
  {
    assert Step(Initial, ExampleEvent, NoFilter) == ExampleResult;
    InitialDescribesEmpty(NoFilter);
    StepPreserves(Initial, [], ExampleEvent, NoFilter);
    assert [] + [ExampleEvent] == [ExampleEvent];
  }

  /** The worked example: one alerted event and no window. */
  lemma SingleEventExample(r: Aggregation)
    requires Describes(r, [ExampleEvent], NoFilter)
    ensures r == ExampleResult
  {
    ExampleIsOneStep();
    Deterministic(r, ExampleResult, [ExampleEvent], NoFilter);
  }
}
