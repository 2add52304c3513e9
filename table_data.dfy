/** A row of the bot page's read and write tables. */
module BotTable {
  import opened Wrappers
  import opened Strings
  import opened Decimal
  import opened BotStats

  /** A queue name and the events recently written to or read from it. */
  datatype TableData = TableData(queue: string, eventsWritten: nat)

  /** The last `n` entries (all of them when there are fewer). */
  function Recent(events: seq<QueueStats>, n: nat): (r: seq<QueueStats>)
    ensures |r| == Min(n, |events|)
  {
    events[|events| - Min(n, |events|)..]
  }

  lemma {:induction false} TotalUnitsCons(x: QueueStats, s: seq<QueueStats>)
    ensures TotalUnits([x] + s) == x.units + TotalUnits(s)
    decreases |s|
  {
    if s != [] {
      var n := |s| - 1;
      TotalUnitsCons(x, s[..n]);
      assert ([x] + s)[..|[x] + s| - 1] == [x] + s[..n];
    } else {
      assert [x] + s == [x];
      assert [x][..0] == [];
    }
  }

  /**
   * `TableData::new`: walks the events from the newest, adds the units of the
   * first three it meets, and removes every `"queue:"` from the name.
   */
  method NewTableData(queue: string, events: seq<QueueStats>) returns (t: TableData)
    ensures t.queue == RemoveAll(queue, "queue:")
    ensures t.eventsWritten == TotalUnits(Recent(events, 3))
  {
    var eventCount := 0;
    for i := 0 to |events|
      invariant eventCount == TotalUnits(Recent(events, Min(i, 3)))
    {
      var event := events[|events| - 1 - i];
      if i <= 2 {
        assert Recent(events, i + 1) == [event] + Recent(events, i);
        TotalUnitsCons(event, Recent(events, i));
        eventCount := eventCount + event.units;
      }
    }
    t := TableData(RemoveAll(queue, "queue:"), eventCount);
  }

  /**
   * The table shows no events for a queue whose statistics report no units,
   * in particular for one without statistics.
   */
  lemma {:induction false} NoEventsNoUnits(events: seq<QueueStats>)
    requires forall i :: 0 <= i < |events| ==> events[i].units == 0
    ensures TotalUnits(Recent(events, 3)) == 0
    ensures TotalUnits(events) == 0
    decreases |events|
  {
    if events != [] {
      var n := |events| - 1;
      NoEventsNoUnits(events[..n]);
      var r := Recent(events, 3);
      if |r| != 0 {
        assert r[..|r| - 1] == Recent(events[..n], |r| - 1);
        assert r[|r| - 1] == events[n];
        NoEventsNoUnits(r[..|r| - 1]);
      }
    }
  }

  /** With three statistics or more, exactly the three newest are counted. */
  lemma LastThreeCounted(events: seq<QueueStats>)
    requires |events| >= 3
    ensures TotalUnits(Recent(events, 3)) ==
            events[|events| - 3].units + events[|events| - 2].units + events[|events| - 1].units
  {
    var n := |events|;
    var r := Recent(events, 3);
    assert r == [events[n - 3], events[n - 2], events[n - 1]];
    assert r[..2] == [events[n - 3], events[n - 2]];
    assert r[..2][..1] == [events[n - 3]];
    assert r[..2][..1][..0] == [];
    assert TotalUnits(r[..2][..1]) == events[n - 3].units;
    assert TotalUnits(r[..2]) == events[n - 3].units + events[n - 2].units;
  }

  lemma {:induction false} TotalUnitsSplit(a: seq<QueueStats>, b: seq<QueueStats>)
    ensures TotalUnits(a + b) == TotalUnits(a) + TotalUnits(b)
    decreases |b|
  {
    if b == [] {
      assert a + b == a;
    } else {
      TotalUnitsSplit(a, b[..|b| - 1]);
      assert (a + b)[..|a + b| - 1] == a + b[..|b| - 1];
    }
  }

  /** Never more than all the units, and all of them when there are at most three statistics. */
  lemma RecentBounded(events: seq<QueueStats>)
    ensures TotalUnits(Recent(events, 3)) <= TotalUnits(events)
    ensures |events| <= 3 ==> TotalUnits(Recent(events, 3)) == TotalUnits(events)
  {
    var k := |events| - Min(3, |events|);
    assert events == events[..k] + Recent(events, 3);
    TotalUnitsSplit(events[..k], Recent(events, 3));
  }

  lemma DecimalCell(n: nat)
    ensures DigitsValue(DecimalString(n)) == n
    ensures n <= I64_MAX ==> ParseI64(DecimalString(n)) == Some(n as int)
  {
    DecimalStringValue(n);
    if n <= I64_MAX { ParseDecimalString(n); }
  }

  /** `ref_array`: the two cells of the row, the name and the decimal count. */
  function RefArray(t: TableData): (r: seq<string>)
    ensures |r| == 2 && r[0] == t.queue
    ensures forall i :: 0 <= i < |r[1]| ==> IsDigit(r[1][i])
    ensures DigitsValue(r[1]) == t.eventsWritten
    ensures t.eventsWritten <= I64_MAX ==> ParseI64(r[1]) == Some(t.eventsWritten as int)
  {
    DecimalCell(t.eventsWritten);
    [t.queue, DecimalString(t.eventsWritten)]
  }
}
