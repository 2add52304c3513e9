/**
 * The statistics merge engine: per-bucket statistics records of one bot are
 * folded into one condensed summary, execution totals plus per-queue
 * read and write statistics.
 */
module BotStats {
  import opened Wrappers

  /** What one queue saw in one bucket (or, once merged, over several). */
  datatype QueueStats = QueueStats(checkpoint: Option<string>, sourceTimestamp: int, timestamp: int, units: nat)
  {
    /**
     * `QueueStats::merge`: the value `self` holds after merging `other` into it.
     * Both timestamps become the later of the two, units add up, and the
     * checkpoint is `other`'s when it has one (the last checkpoint wins).
     */
    function Merge(other: QueueStats): (r: QueueStats)
      ensures r.sourceTimestamp >= sourceTimestamp && r.sourceTimestamp >= other.sourceTimestamp
      ensures r.sourceTimestamp == sourceTimestamp || r.sourceTimestamp == other.sourceTimestamp
      ensures r.timestamp >= timestamp && r.timestamp >= other.timestamp
      ensures r.timestamp == timestamp || r.timestamp == other.timestamp
      ensures r.units == units + other.units
      ensures r.checkpoint == if other.checkpoint.Some? then other.checkpoint else checkpoint
    {
      QueueStats(if other.checkpoint.Some? then other.checkpoint else checkpoint,
                 Max(sourceTimestamp, other.sourceTimestamp),
                 Max(timestamp, other.timestamp),
                 units + other.units)
    }
  }

  function Max(a: int, b: int): (m: int)
    ensures m >= a && m >= b && (m == a || m == b)
  {
    if a >= b then a else b
  }

  function Min(a: int, b: int): (m: int)
    ensures m <= a && m <= b && (m == a || m == b)
  {
    if a <= b then a else b
  }

  /**
   * A record's read or write block: either a map from queue id to statistics or
   * the empty object `{}`, which the store writes for "no queues".
   */
  datatype StatsOrEmpty = NotEmpty(entries: map<string, QueueStats>) | Empty

  /** The entries a block reports; `{}` and an empty map both report none. */
  function Entries(s: StatsOrEmpty): map<string, QueueStats>
  {
    match s
    case NotEmpty(m) => m
    case Empty => map[]
  }

  /** The optional execution counters of one bucket. */
  datatype BaseExecutionStats = BaseExecutionStats(
    completions: Option<nat>, duration: Option<nat>, errors: Option<nat>,
    maxDuration: Option<nat>, minDuration: Option<nat>, units: Option<nat>)

  datatype ExecutionStats = ExecutionStats(execution: Option<BaseExecutionStats>, read: StatsOrEmpty, write: StatsOrEmpty)

  /** One row of the statistics table: one entity in one time bucket. */
  datatype StatsRecord = StatsRecord(
    id: string, bucket: string, current: ExecutionStats, period: string,
    startEid: Option<string>, time: int)

  /** The accumulated execution counters. */
  datatype Stats = Stats(completions: nat, duration: nat, errors: nat, maxDuration: nat, minDuration: nat, units: nat)

  /** The value of a `CondensedStats`. */
  datatype Condensed = Condensed(executionStats: Stats, read: map<string, QueueStats>, write: map<string, QueueStats>)

  /** Which of a record's two queue blocks is meant. */
  datatype Direction = Read | Write

  function Incoming(r: StatsRecord, dir: Direction): StatsOrEmpty
  {
    if dir == Read then r.current.read else r.current.write
  }

  function Queues(c: Condensed, dir: Direction): map<string, QueueStats>
  {
    if dir == Read then c.read else c.write
  }

  function OrZero(v: Option<nat>): (n: nat) { if v.Some? then v.value else 0 }

  /**
   * The execution part of `merge_execution_stats`.  Nothing changes without an
   * execution block; otherwise every present counter is added, the maximum
   * duration is raised, and the minimum duration is lowered only by a value
   * above zero.
   */
  function MergeExecution(acc: Stats, e: Option<BaseExecutionStats>): (r: Stats)
    ensures e.None? ==> r == acc
    ensures r.completions >= acc.completions && r.duration >= acc.duration
    ensures r.errors >= acc.errors && r.units >= acc.units && r.maxDuration >= acc.maxDuration
    ensures r.minDuration <= acc.minDuration
    ensures r.minDuration != acc.minDuration ==>
              e.Some? && e.value.minDuration == Some(r.minDuration) && r.minDuration > 0
  {
    match e
    case None => acc
    case Some(x) =>
      var minDuration :=
        if x.minDuration.Some? && x.minDuration.value > 0 && x.minDuration.value < acc.minDuration
        then x.minDuration.value else acc.minDuration;
      Stats(acc.completions + OrZero(x.completions),
            acc.duration + OrZero(x.duration),
            acc.errors + OrZero(x.errors),
            if x.maxDuration.Some? && x.maxDuration.value > acc.maxDuration then x.maxDuration.value else acc.maxDuration,
            minDuration,
            acc.units + OrZero(x.units))
  }

  /** One map of `merge_stats`: the per-queue rule applied to every queue id. */
  function MergeQueues(acc: map<string, QueueStats>, incoming: StatsOrEmpty): (merged: map<string, QueueStats>)
  {
    var m := Entries(incoming);
    map q | q in acc.Keys + m.Keys :: if q in m then (if q in acc then acc[q].Merge(m[q]) else m[q]) else acc[q]
  }

  /**
   * What `merge_stats` does to one map: the queue ids become the old ones plus
   * the incoming ones; an incoming queue is merged into the entry it already has
   * or inserted as a copy; a queue that is not incoming keeps its entry; `{}` and
   * an empty map change nothing.
   */
  lemma MergeQueuesSpec(acc: map<string, QueueStats>, incoming: StatsOrEmpty)
    ensures MergeQueues(acc, incoming).Keys == acc.Keys + Entries(incoming).Keys
    ensures forall q :: q in acc && q !in Entries(incoming) ==> MergeQueues(acc, incoming)[q] == acc[q]
    ensures forall q :: q in acc && q in Entries(incoming) ==> MergeQueues(acc, incoming)[q] == acc[q].Merge(Entries(incoming)[q])
    ensures forall q :: q !in acc && q in Entries(incoming) ==> MergeQueues(acc, incoming)[q] == Entries(incoming)[q]
    ensures Entries(incoming) == map[] ==> MergeQueues(acc, incoming) == acc
  {
  }

  /** Merging one more incoming entry, for a queue not yet merged, updates that one key. */
  lemma MergeQueuesAddOne(acc: map<string, QueueStats>, m: map<string, QueueStats>, q: string, v: QueueStats)
    requires q !in m
    ensures MergeQueues(acc, NotEmpty(m[q := v])) ==
            MergeQueues(acc, NotEmpty(m))[q := if q in acc then acc[q].Merge(v) else v]
  {
  }

  /** `merge_execution_stats` as a whole: execution counters, then both queue maps. */
  function MergeRecord(acc: Condensed, r: StatsRecord): (merged: Condensed)
  {
    Condensed(MergeExecution(acc.executionStats, r.current.execution),
              MergeQueues(acc.read, r.current.read),
              MergeQueues(acc.write, r.current.write))
  }

  /** The all-zero accumulator `merge_bot_stats` starts from. */
  const ZERO: Condensed := Condensed(Stats(0, 0, 0, 0, 0, 0), map[], map[])

  /** `merge_bot_stats`: the records folded into the zero accumulator, in input order. */
  function MergeAll(rs: seq<StatsRecord>): (merged: Condensed)
  {
    if rs == [] then ZERO else MergeRecord(MergeAll(rs[..|rs| - 1]), rs[|rs| - 1])
  }

  /** A record object whose fields `merge_execution_stats` and `merge_stats` update in place. */
  class CondensedStats {
    var executionStats: Stats
    var read: map<string, QueueStats>
    var write: map<string, QueueStats>

    function Value(): Condensed
      reads this
    {
      Condensed(executionStats, read, write)
    }

    /** The literal `merge_bot_stats` starts from. */
    constructor ()
      ensures Value() == ZERO
    {
      executionStats := Stats(0, 0, 0, 0, 0, 0);
      read := map[];
      write := map[];
    }

    method MergeExecutionStats(other: StatsRecord)
      modifies this
      ensures Value() == MergeRecord(old(Value()), other)
    {
      MergeCounters(other.current.execution);
      MergeStats(other.current.read, other.current.write);
    }

    /** The counter half of `merge_execution_stats`: each present counter folded in, field by field. */
    method MergeCounters(execution: Option<BaseExecutionStats>)
      modifies this
      ensures executionStats == MergeExecution(old(executionStats), execution)
      ensures read == old(read) && write == old(write)
    {
      if execution.Some? {
        var o := execution.value;
        var completions, duration, errors := executionStats.completions, executionStats.duration, executionStats.errors;
        var maxDuration, minDuration, units := executionStats.maxDuration, executionStats.minDuration, executionStats.units;
        if o.completions.Some? {
          completions := completions + o.completions.value;
        }
        if o.units.Some? {
          units := units + o.units.value;
        }
        if o.duration.Some? {
          duration := duration + o.duration.value;
        }
        if o.maxDuration.Some? {
          maxDuration := Max(maxDuration, o.maxDuration.value);
        }
        if o.errors.Some? {
          errors := errors + o.errors.value;
        }
        if o.minDuration.Some? {
          if o.minDuration.value > 0 {
            minDuration := if minDuration <= o.minDuration.value then minDuration else o.minDuration.value;
          }
        }
        executionStats := Stats(completions, duration, errors, maxDuration, minDuration, units);
      }
    }

    /** Merges each incoming queue into `read` and `write`, visiting the incoming entries in any order. */
    method MergeStats(otherRead: StatsOrEmpty, otherWrite: StatsOrEmpty)
      modifies this
      ensures executionStats == old(executionStats)
      ensures read == MergeQueues(old(read), otherRead)
      ensures write == MergeQueues(old(write), otherWrite)
    {
      ghost var read0, write0 := read, write;
      if otherRead.NotEmpty? && |otherRead.entries| != 0 {
        read := MergeEach(read, otherRead.entries);
      } else {
        MergeQueuesSpec(read0, otherRead);
      }
      if otherWrite.NotEmpty? && |otherWrite.entries| != 0 {
        write := MergeEach(write, otherWrite.entries);
      } else {
        MergeQueuesSpec(write0, otherWrite);
      }
    }
  }

  /**
   * The loop body `merge_stats` runs for each of its two maps: every incoming
   * entry, in whatever order the map yields them, is merged into the entry of
   * the same queue or inserted as a copy.
   */
  method MergeEach(current: map<string, QueueStats>, incoming: map<string, QueueStats>)
    returns (merged: map<string, QueueStats>)
    ensures merged == MergeQueues(current, NotEmpty(incoming))
  {
    merged := current;
    var todo := incoming.Keys;
    while todo != {}
      invariant todo <= incoming.Keys
      invariant merged == MergeQueues(current, NotEmpty(incoming - todo))
      decreases todo
    {
      var queueId :| queueId in todo;
      var oStat := incoming[queueId];
      MergeQueuesAddOne(current, incoming - todo, queueId, oStat);
      assert (incoming - todo)[queueId := oStat] == incoming - (todo - {queueId});
      if queueId in merged {
        merged := merged[queueId := merged[queueId].Merge(oStat)];
      } else {
        merged := merged[queueId := oStat];
      }
      todo := todo - {queueId};
    }
    assert incoming - todo == incoming;
  }

  /** `merge_bot_stats`: folds every record, in order, into a fresh zero accumulator. */
  method MergeBotStats(botStats: seq<StatsRecord>) returns (stat: CondensedStats)
    ensures fresh(stat)
    ensures stat.Value() == MergeAll(botStats)
  {
    stat := new CondensedStats();
    for i := 0 to |botStats|
      invariant stat.Value() == MergeAll(botStats[..i])
    {
      assert botStats[..i + 1][..i] == botStats[..i];
      stat.MergeExecutionStats(botStats[i]);
    }
    assert botStats[..|botStats|] == botStats;
  }

  // ---------------------------------------------------------------------------
  // Execution totals of the fold

  /** The five counters the fold sums or maximises. */
  datatype Field = Completions | Duration | Errors | MaxDuration | Units

  function Get(s: Stats, f: Field): nat
  {
    match f
    case Completions => s.completions
    case Duration => s.duration
    case Errors => s.errors
    case MaxDuration => s.maxDuration
    case Units => s.units
  }

  /** What one record reports for a counter; an absent block or field reports 0. */
  function Contribution(r: StatsRecord, f: Field): nat
  {
    match r.current.execution
    case None => 0
    case Some(x) =>
      OrZero(match f
             case Completions => x.completions
             case Duration => x.duration
             case Errors => x.errors
             case MaxDuration => x.maxDuration
             case Units => x.units)
  }

  /** How a counter accumulates: the maximum duration by `max`, the others by `+`. */
  function Combine(f: Field, a: nat, b: nat): nat
  {
    if f == MaxDuration then Max(a, b) else a + b
  }

  /** The sum (the maximum, for `MaxDuration`) of a counter over all records. */
  function Aggregate(rs: seq<StatsRecord>, f: Field): nat
  {
    if rs == [] then 0 else Combine(f, Aggregate(rs[..|rs| - 1], f), Contribution(rs[|rs| - 1], f))
  }

  /**
   * One record's execution block: each of the five counters combines the old
   * value with what the record reports, and the minimum duration becomes the
   * smaller of the two when the record reports one above zero.
   */
  lemma MergeExecutionStep(acc: Stats, r: StatsRecord, f: Field)
    ensures Get(MergeExecution(acc, r.current.execution), f) == Combine(f, Get(acc, f), Contribution(r, f))
    ensures var e := r.current.execution;
            MergeExecution(acc, e).minDuration ==
              if e.Some? && e.value.minDuration.Some? && e.value.minDuration.value > 0
              then Min(acc.minDuration, e.value.minDuration.value)
              else acc.minDuration
  {
  }

  /** Each counter of the merged totals is that counter summed (or maximised) over the records. */
  lemma {:induction false} MergeAllTotals(rs: seq<StatsRecord>, f: Field)
    ensures Get(MergeAll(rs).executionStats, f) == Aggregate(rs, f)
  {
    if rs != [] {
      var n := |rs| - 1;
      MergeAllTotals(rs[..n], f);
      MergeExecutionStep(MergeAll(rs[..n]).executionStats, rs[n], f);
    }
  }

  lemma {:induction false} AggregateConcat(a: seq<StatsRecord>, b: seq<StatsRecord>, f: Field)
    ensures Aggregate(a + b, f) == Combine(f, Aggregate(a, f), Aggregate(b, f))
    decreases |b|
  {
    if b == [] {
      assert a + b == a;
    } else {
      assert (a + b)[..|a + b| - 1] == a + b[..|b| - 1];
      AggregateConcat(a, b[..|b| - 1], f);
    }
  }

  /** Taking one record out of the middle and adding its contribution back gives the same counter. */
  lemma AggregateRemove(b: seq<StatsRecord>, j: nat, f: Field)
    requires j < |b|
    ensures Aggregate(b, f) == Combine(f, Aggregate(b[..j] + b[j + 1..], f), Contribution(b[j], f))
  {
    assert b == (b[..j] + [b[j]]) + b[j + 1..];
    AggregateConcat(b[..j] + [b[j]], b[j + 1..], f);
    AggregateConcat(b[..j], [b[j]], f);
    AggregateConcat(b[..j], b[j + 1..], f);
    assert [b[j]][..0] == [];
  }

  /** Reordering the records does not change any counter. */
  lemma {:induction false} AggregatePermutation(a: seq<StatsRecord>, b: seq<StatsRecord>, f: Field)
    requires multiset(a) == multiset(b)
    ensures Aggregate(a, f) == Aggregate(b, f)
    decreases |a|
  {
    if a != [] {
      var x := a[|a| - 1];
      assert a == a[..|a| - 1] + [x];
      assert x in multiset(b);
      var j :| 0 <= j < |b| && b[j] == x;
      var rest := b[..j] + b[j + 1..];
      assert b == b[..j] + [x] + b[j + 1..];
      assert multiset(a[..|a| - 1]) == multiset(a) - multiset{x};
      assert multiset(rest) == multiset(b) - multiset{x};
      AggregatePermutation(a[..|a| - 1], rest, f);
      AggregateRemove(b, j, f);
    }
  }

  /**
   * `min_duration` starts at 0 and is only ever replaced by a smaller positive
   * value, so the condensed minimum duration is always 0.
   */
  lemma {:induction false} MinDurationAlwaysZero(rs: seq<StatsRecord>)
    ensures MergeAll(rs).executionStats.minDuration == 0
  {
    if rs != [] {
      MinDurationAlwaysZero(rs[..|rs| - 1]);
    }
  }

  /** The condensed execution totals do not depend on the order of the records. */
  lemma MergeAllTotalsOrderFree(a: seq<StatsRecord>, b: seq<StatsRecord>)
    requires multiset(a) == multiset(b)
    ensures MergeAll(a).executionStats == MergeAll(b).executionStats
  {
    forall f: Field
      ensures Get(MergeAll(a).executionStats, f) == Get(MergeAll(b).executionStats, f)
    {
      MergeAllTotals(a, f);
      MergeAllTotals(b, f);
      AggregatePermutation(a, b, f);
    }
    assert Get(MergeAll(a).executionStats, Completions) == Get(MergeAll(b).executionStats, Completions);
    assert Get(MergeAll(a).executionStats, Duration) == Get(MergeAll(b).executionStats, Duration);
    assert Get(MergeAll(a).executionStats, Errors) == Get(MergeAll(b).executionStats, Errors);
    assert Get(MergeAll(a).executionStats, MaxDuration) == Get(MergeAll(b).executionStats, MaxDuration);
    assert Get(MergeAll(a).executionStats, Units) == Get(MergeAll(b).executionStats, Units);
    MinDurationAlwaysZero(a);
    MinDurationAlwaysZero(b);
  }

  /** A zero minimum duration is treated as absent: it leaves a positive running minimum alone. */
  lemma ZeroMinDurationIgnored(acc: Stats, x: BaseExecutionStats)
    requires x.minDuration == Some(0)
    ensures MergeExecution(acc, Some(x)).minDuration == acc.minDuration
  {
  }

  // ---------------------------------------------------------------------------
  // Per-queue statistics of the fold

  /** The statistics the records report for queue `q` in direction `dir`, in record order. */
  function Column(rs: seq<StatsRecord>, dir: Direction, q: string): seq<QueueStats>
  {
    if rs == [] then []
    else
      var last := Entries(Incoming(rs[|rs| - 1], dir));
      Column(rs[..|rs| - 1], dir, q) + (if q in last then [last[q]] else [])
  }

  /** The first statistics of a queue, with every later one merged into it, as the map entry evolves. */
  function Collapse(col: seq<QueueStats>): QueueStats
    requires col != []
  {
    if |col| == 1 then col[0] else Collapse(col[..|col| - 1]).Merge(col[|col| - 1])
  }

  /**
   * The condensed map of a direction has an entry exactly for the queues some
   * record reports, and that entry is the queue's statistics merged in record order.
   */
  lemma {:induction false} MergeAllPerQueue(rs: seq<StatsRecord>, dir: Direction, q: string)
    ensures q in Queues(MergeAll(rs), dir) <==> Column(rs, dir, q) != []
    ensures q in Queues(MergeAll(rs), dir) ==> Queues(MergeAll(rs), dir)[q] == Collapse(Column(rs, dir, q))
  {
    if rs != [] {
      var prefix := rs[..|rs| - 1];
      MergeAllPerQueue(prefix, dir, q);
      var acc := Queues(MergeAll(prefix), dir);
      assert Queues(MergeAll(rs), dir) == MergeQueues(acc, Incoming(rs[|rs| - 1], dir));
      MergeQueuesSpec(acc, Incoming(rs[|rs| - 1], dir));
      var col := Column(rs, dir, q);
      var last := Entries(Incoming(rs[|rs| - 1], dir));
      assert Entries(Incoming(rs[|rs| - 1], dir)) == last;
      if q in last {
        assert col == Column(prefix, dir, q) + [last[q]];
        if Column(prefix, dir, q) == [] {
          assert q !in acc;
          assert col == [last[q]];
          assert Queues(MergeAll(rs), dir)[q] == last[q];
        } else {
          assert q in acc;
          assert col[..|col| - 1] == Column(prefix, dir, q);
          assert Collapse(col) == Collapse(Column(prefix, dir, q)).Merge(last[q]);
          assert Queues(MergeAll(rs), dir)[q] == acc[q].Merge(last[q]);
        }
      } else {
        assert col == Column(prefix, dir, q);
      }
    }
  }

  function TotalUnits(col: seq<QueueStats>): nat
  {
    if col == [] then 0 else TotalUnits(col[..|col| - 1]) + col[|col| - 1].units
  }

  function LatestSourceTimestamp(col: seq<QueueStats>): int
    requires col != []
  {
    if |col| == 1 then col[0].sourceTimestamp
    else Max(LatestSourceTimestamp(col[..|col| - 1]), col[|col| - 1].sourceTimestamp)
  }

  function LatestTimestamp(col: seq<QueueStats>): int
    requires col != []
  {
    if |col| == 1 then col[0].timestamp
    else Max(LatestTimestamp(col[..|col| - 1]), col[|col| - 1].timestamp)
  }

  /** The checkpoint of the last statistics that has one, if any does. */
  function LastCheckpoint(col: seq<QueueStats>): Option<string>
  {
    if col == [] then None
    else if col[|col| - 1].checkpoint.Some? then col[|col| - 1].checkpoint
    else LastCheckpoint(col[..|col| - 1])
  }

  /**
   * A queue's merged statistics: units summed, both timestamps the latest, and
   * the checkpoint the last one reported.
   */
  lemma {:induction false} CollapseSummary(col: seq<QueueStats>)
    requires col != []
    ensures Collapse(col).units == TotalUnits(col)
    ensures Collapse(col).sourceTimestamp == LatestSourceTimestamp(col)
    ensures Collapse(col).timestamp == LatestTimestamp(col)
    ensures Collapse(col).checkpoint == LastCheckpoint(col)
  {
    if |col| == 1 {
      assert col[..0] == [];
    } else {
      CollapseSummary(col[..|col| - 1]);
    }
  }

  /** The condensed units of a queue equal the sum of the units every record reports for it. */
  lemma QueueUnitsAreSummed(rs: seq<StatsRecord>, dir: Direction, q: string)
    requires q in Queues(MergeAll(rs), dir)
    ensures Queues(MergeAll(rs), dir)[q].units == TotalUnits(Column(rs, dir, q))
    ensures Queues(MergeAll(rs), dir)[q].checkpoint == LastCheckpoint(Column(rs, dir, q))
  {
    MergeAllPerQueue(rs, dir, q);
    CollapseSummary(Column(rs, dir, q));
  }

  /** Timestamps and units merge the same way in either order. */
  lemma MergeNumbersCommute(a: QueueStats, b: QueueStats)
    ensures a.Merge(b).sourceTimestamp == b.Merge(a).sourceTimestamp
    ensures a.Merge(b).timestamp == b.Merge(a).timestamp
    ensures a.Merge(b).units == b.Merge(a).units
  {
  }

  /** Checkpoints do not: two records with different checkpoints give a different result in the other order. */
  lemma CheckpointDependsOnOrder()
    ensures var a := QueueStats(Some("A"), 1, 1, 1);
            var b := QueueStats(Some("B"), 2, 2, 2);
            var ra := StatsRecord("bot:x", "b1", ExecutionStats(None, NotEmpty(map["queue:q" := a]), Empty), "minute_15", None, 1);
            var rb := StatsRecord("bot:x", "b2", ExecutionStats(None, NotEmpty(map["queue:q" := b]), Empty), "minute_15", None, 2);
            MergeAll([ra, rb]).read["queue:q"].checkpoint == Some("B") &&
            MergeAll([rb, ra]).read["queue:q"].checkpoint == Some("A")
  {
    var a := QueueStats(Some("A"), 1, 1, 1);
    var b := QueueStats(Some("B"), 2, 2, 2);
    var ra := StatsRecord("bot:x", "b1", ExecutionStats(None, NotEmpty(map["queue:q" := a]), Empty), "minute_15", None, 1);
    var rb := StatsRecord("bot:x", "b2", ExecutionStats(None, NotEmpty(map["queue:q" := b]), Empty), "minute_15", None, 2);
    assert [ra, rb][..1] == [ra] && [ra][..0] == [];
    assert [rb, ra][..1] == [rb] && [rb][..0] == [];
  }
}
