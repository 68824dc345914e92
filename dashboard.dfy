/** `processData`: one pass over the events, updating five local tables. */
module Dashboard {
  import opened Wrappers
  import opened Events
  import opened Counting

  /**
   * Walks the events once; an event with an alert inside the window bumps,
   * in each of the five tables, the counter of its own key when that field
   * is truthy.
   */
  method ProcessData(data: seq<Event>, filter: DateFilter) returns (result: Aggregation)
    ensures result == Aggregate(data, filter)
    ensures Describes(result, data, filter)
  {
    var eventTypes: map<string, nat> := map[];
    var signatures: map<string, nat> := map[];
    var severities := SeededSeverities;
    var srcIps: map<string, nat> := map[];
    var destIps: map<string, nat> := map[];

    var i := 0;
    while i < |data|
      invariant i <= |data|
      invariant Aggregation(eventTypes, signatures, severities, srcIps, destIps) == Aggregate(data[..i], filter)
    {
      var event := data[i];
      ghost var next := Step(Aggregation(eventTypes, signatures, severities, srcIps, destIps), event, filter);
      var eventType := event.eventType;
      var alert := event.alert;
      var date := event.timestamp;

      // A comparison with an invalid Date (date == None) is false.
      var counted := alert.Some?
        && (filter.startDate.None? || (date.Some? && date.value >= filter.startDate.value))
        && (filter.endDate.None? || (date.Some? && date.value <= filter.endDate.value));
      assert counted == Qualifies(event, filter);
      if counted {
        var signature := alert.value.signature;
        var severity := alert.value.severity;
        var srcIp := event.srcIp;
        var destIp := event.destIp;

        if eventType.Some? && eventType.value != "" { eventTypes := Incremented(eventTypes, eventType.value); }
        if signature.Some? && signature.value != "" { signatures := Incremented(signatures, signature.value); }
        if severity.Some? && severity.value != 0 { severities := IncrementedLevel(severities, severity.value); }
        if srcIp.Some? && srcIp.value != "" { srcIps := Incremented(srcIps, srcIp.value); }
        if destIp.Some? && destIp.value != "" { destIps := Incremented(destIps, destIp.value); }
      }

      assert Aggregation(eventTypes, signatures, severities, srcIps, destIps) == next;
      AggregateSnoc(data[..i], event, filter);
      assert data[..i + 1] == data[..i] + [event];
      i := i + 1;
    }
    assert data[..|data|] == data;
    result := Aggregation(eventTypes, signatures, severities, srcIps, destIps);
    assert Describes(result, data, filter) by { AggregateDescribes(data, filter); }
  }
}
