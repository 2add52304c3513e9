/**
 * The per-queue grouping of one direction of a list of statistics records:
 * every entry a record reports is appended, in record order, to the list of
 * its key.  The bot page groups by queue id, the queue page by bot id.
 */
module Grouping {
  import opened BotStats

  /** The keys any record reports in direction `dir`. */
  function ReportedKeys(rs: seq<StatsRecord>, dir: Direction): set<string>
  {
    if rs == [] then {} else ReportedKeys(rs[..|rs| - 1], dir) + Entries(Incoming(rs[|rs| - 1], dir)).Keys
  }

  /** The grouping as a whole: one list per reported key, holding that key's entries in record order. */
  function Grouped(rs: seq<StatsRecord>, dir: Direction): map<string, seq<QueueStats>>
  {
    map q | q in ReportedKeys(rs, dir) :: Column(rs, dir, q)
  }

  /** A key is reported exactly when its column is not empty. */
  lemma {:induction false} ReportedKeysColumn(rs: seq<StatsRecord>, dir: Direction, q: string)
    ensures q in ReportedKeys(rs, dir) <==> Column(rs, dir, q) != []
  {
    if rs != [] {
      ReportedKeysColumn(rs[..|rs| - 1], dir, q);
    }
  }

  /** Appending one record's entries to the lists of their keys, a new key starting a new list. */
  function AppendEach(g: map<string, seq<QueueStats>>, entries: map<string, QueueStats>): map<string, seq<QueueStats>>
  {
    map q | q in g.Keys + entries.Keys ::
      (if q in g then g[q] else []) + (if q in entries then [entries[q]] else [])
  }

  /** Appending no entries changes nothing. */
  lemma AppendEachEmpty(g: map<string, seq<QueueStats>>)
    ensures AppendEach(g, map[]) == g
  {
    assert AppendEach(g, map[]).Keys == g.Keys;
    forall q | q in g ensures AppendEach(g, map[])[q] == g[q] {
      assert g[q] + [] == g[q];
    }
  }

  /** Appending one more entry, for a key not yet appended, updates that one list. */
  lemma AppendEachAddOne(g: map<string, seq<QueueStats>>, m: map<string, QueueStats>, q: string, v: QueueStats)
    requires q !in m
    ensures AppendEach(g, m[q := v]) == AppendEach(g, m)[q := (if q in g then g[q] else []) + [v]]
  {
  }

  /** Grouping one more record appends its entries. */
  lemma GroupedSnoc(rs: seq<StatsRecord>, r: StatsRecord, dir: Direction)
    ensures Grouped(rs + [r], dir) == AppendEach(Grouped(rs, dir), Entries(Incoming(r, dir)))
  {
    var rs' := rs + [r];
    assert rs'[..|rs'| - 1] == rs;
    forall q
      ensures q in Grouped(rs', dir) <==> q in AppendEach(Grouped(rs, dir), Entries(Incoming(r, dir)))
      ensures q in Grouped(rs', dir) ==> Grouped(rs', dir)[q] == AppendEach(Grouped(rs, dir), Entries(Incoming(r, dir)))[q]
    {
      ReportedKeysColumn(rs, dir, q);
    }
  }

  /**
   * The inner loop of `write_stats_from_all_stats` and `read_stats_from_all_stats`:
   * each entry of one record's block, in whatever order the map yields them,
   * is pushed onto its key's list, or starts one.
   */
  method AppendEntries(current: map<string, seq<QueueStats>>, entries: map<string, QueueStats>)
    returns (grouped: map<string, seq<QueueStats>>)
    ensures grouped == AppendEach(current, entries)
  {
    grouped := current;
    var todo := entries.Keys;
    assert entries - todo == map[];
    AppendEachEmpty(current);
    while todo != {}
      invariant todo <= entries.Keys
      invariant grouped == AppendEach(current, entries - todo)
      decreases todo
    {
      var key :| key in todo;
      AppendEachAddOne(current, entries - todo, key, entries[key]);
      assert (entries - todo)[key := entries[key]] == entries - (todo - {key});
      assert key !in entries - todo;
      if key in grouped {
        assert key in current && grouped[key] == current[key] + [];
        assert current[key] + [] == current[key];
        grouped := grouped[key := grouped[key] + [entries[key]]];
      } else {
        assert key !in current;
        assert [] + [entries[key]] == [entries[key]];
        grouped := grouped[key := [entries[key]]];
      }
      todo := todo - {key};
    }
    assert entries - todo == entries;
  }

  /**
   * `write_stats_from_all_stats` / `read_stats_from_all_stats`: the records in
   * order, a `NotEmpty` block's entries appended to the lists of their keys.
   */
  method GroupStats(stats: seq<StatsRecord>, dir: Direction) returns (grouped: map<string, seq<QueueStats>>)
    ensures grouped == Grouped(stats, dir)
  {
    grouped := map[];
    for i := 0 to |stats|
      invariant grouped == Grouped(stats[..i], dir)
    {
      grouped := AppendEntries(grouped, Entries(Incoming(stats[i], dir)));
      assert stats[..i + 1] == stats[..i] + [stats[i]];
      GroupedSnoc(stats[..i], stats[i], dir);
    }
    assert stats[..|stats|] == stats;
  }

  /**
   * The keys of the grouping are the keys some record reports; each list
   * holds the key's entries in record order; a record whose block is `{}`
   * contributes nothing.
   */
  lemma GroupedSpec(rs: seq<StatsRecord>, dir: Direction, q: string)
    ensures q in Grouped(rs, dir) <==> exists i :: 0 <= i < |rs| && q in Entries(Incoming(rs[i], dir))
    ensures q in Grouped(rs, dir) ==> Grouped(rs, dir)[q] == Column(rs, dir, q)
  {
    ReportedKeysColumn(rs, dir, q);
    ColumnNonEmpty(rs, dir, q);
  }

  lemma {:induction false} ColumnNonEmpty(rs: seq<StatsRecord>, dir: Direction, q: string)
    ensures Column(rs, dir, q) != [] <==> exists i :: 0 <= i < |rs| && q in Entries(Incoming(rs[i], dir))
  {
    if rs != [] {
      var n := |rs| - 1;
      ColumnNonEmpty(rs[..n], dir, q);
      if Column(rs[..n], dir, q) != [] {
        var i :| 0 <= i < n && q in Entries(Incoming(rs[..n][i], dir));
        assert rs[i] == rs[..n][i];
      }
      if exists i :: 0 <= i < |rs| && q in Entries(Incoming(rs[i], dir)) {
        var i :| 0 <= i < |rs| && q in Entries(Incoming(rs[i], dir));
        if i < n {
          assert rs[..n][i] == rs[i];
        }
      }
    }
  }

  /** Records whose blocks report nothing leave the grouping as it is. */
  lemma {:induction false} GroupedIgnoresEmpty(rs: seq<StatsRecord>, r: StatsRecord, dir: Direction)
    requires Entries(Incoming(r, dir)) == map[]
    ensures Grouped(rs + [r], dir) == Grouped(rs, dir)
  {
    GroupedSnoc(rs, r, dir);
    AppendEachEmpty(Grouped(rs, dir));
  }

  /** Each group collapses, by the queue merge rule, to the entry the condensed statistics hold for it. */
  lemma GroupedCollapses(rs: seq<StatsRecord>, dir: Direction, q: string)
    requires q in Grouped(rs, dir)
    ensures Grouped(rs, dir)[q] != []
    ensures q in Queues(MergeAll(rs), dir) && Collapse(Grouped(rs, dir)[q]) == Queues(MergeAll(rs), dir)[q]
  {
    ReportedKeysColumn(rs, dir, q);
    MergeAllPerQueue(rs, dir, q);
  }

  /** The grouping and the condensed statistics have the same keys. */
  lemma GroupedKeys(rs: seq<StatsRecord>, dir: Direction)
    ensures Grouped(rs, dir).Keys == Queues(MergeAll(rs), dir).Keys
  {
    forall q ensures q in Grouped(rs, dir) <==> q in Queues(MergeAll(rs), dir) {
      ReportedKeysColumn(rs, dir, q);
      MergeAllPerQueue(rs, dir, q);
    }
  }
}
