/**
 * Time granularities, the sort keys of the statistics table's buckets, and the
 * absolute-time query window.  The store client itself is outside the model.
 */
module Dynamo {
  import opened Wrappers
  import opened Strings
  import opened Decimal

  /** The granularity a statistics record is bucketed by. */
  datatype Period = Minute | Minute5 | Minute15 | Hour | Day | Week

  /** `Display for Period`. */
  function PeriodName(p: Period): string
  {
    match p
    case Minute => "minute"
    case Minute5 => "minute_5"
    case Minute15 => "minute_15"
    case Hour => "hour"
    case Day => "day"
    case Week => "week"
  }

  /** Distinct periods display differently, so a key's prefix names its period. */
  lemma PeriodNameInjective(p: Period, q: Period)
    ensures PeriodName(p) == PeriodName(q) <==> p == q
  {
    if p != q && {p, q} == {Hour, Week} {
      assert PeriodName(p)[0] != PeriodName(q)[0];
    }
  }

  /** A UTC instant in civil fields, as chrono formats it. */
  datatype CivilTime = CivilTime(year: int, month: int, day: int, hour: int, minute: int, second: int)

  predicate IsLeapYear(y: int)
  {
    y % 4 == 0 && (y % 100 != 0 || y % 400 == 0)
  }

  function DaysInMonth(y: int, m: int): int
    requires 1 <= m <= 12
  {
    if m == 2 then (if IsLeapYear(y) then 29 else 28)
    else if m == 4 || m == 6 || m == 9 || m == 11 then 30
    else 31
  }

  /** A real calendar instant whose year `%Y` prints with four digits. */
  predicate Valid(t: CivilTime)
  {
    && 0 <= t.year <= 9999
    && 1 <= t.month <= 12
    && 1 <= t.day <= DaysInMonth(t.year, t.month)
    && 0 <= t.hour <= 23
    && 0 <= t.minute <= 59
    && 0 <= t.second <= 59
  }

  /** How many calendar fields a key of period `p` shows: down to the minute, the hour or the day. */
  function FieldCount(p: Period): nat
  {
    match p
    case Day => 3
    case Hour => 4
    case _ => 5
  }

  /** The calendar fields of `t`, most significant first. */
  function AllFields(t: CivilTime): seq<int>
  {
    [t.year, t.month, t.day, t.hour, t.minute]
  }

  /** The calendar fields a key of period `p` shows; seconds are never among them. */
  function Fields(p: Period, t: CivilTime): (f: seq<int>)
    ensures |f| == FieldCount(p)
  {
    AllFields(t)[..FieldCount(p)]
  }

  /** The printed form of each field: `%Y`, then each further field with the separator before it. */
  function AllPieces(t: CivilTime): (ps: seq<string>)
    requires Valid(t)
    ensures |ps| == 5
  {
    [Pad(t.year as nat, 4), "-" + Pad(t.month as nat, 2), "-" + Pad(t.day as nat, 2),
     " " + Pad(t.hour as nat, 2), ":" + Pad(t.minute as nat, 2)]
  }

  function Flatten(ps: seq<string>): string
  {
    if ps == [] then [] else Flatten(ps[..|ps| - 1]) + ps[|ps| - 1]
  }

  /** A time bucket of one bot: a period and an instant. */
  datatype BotBucket = BotBucket(period: Period, date: CivilTime)


  /** The date part of a key: `%Y-%m-%d %H:%M` for the minute periods, `%Y-%m-%d %H` for hours, `%Y-%m-%d` for days and weeks. */
  function DateText(p: Period, t: CivilTime): string
    requires Valid(t)
  {
    var ymd := Pad(t.year as nat, 4) + "-" + Pad(t.month as nat, 2) + "-" + Pad(t.day as nat, 2);
    if p == Day || p == Week then ymd
    else if p == Hour then ymd + " " + Pad(t.hour as nat, 2)
    else ymd + " " + Pad(t.hour as nat, 2) + ":" + Pad(t.minute as nat, 2)
  }

  /**
   * `Display for BotBucket`: `"{period}_{date}"`.  The instant is printed as
   * it is, not rounded to the bucket's boundary.  A week bucket has no format:
   * formatting it panics.
   */
  function BucketKey(b: BotBucket): (r: Result<string, string>)
    requires Valid(b.date)
    ensures r.Err? <==> b.period == Week
  {
    if b.period == Week then Err("haven't found an instance of a week yet")
    else Ok(PeriodName(b.period) + "_" + DateText(b.period, b.date))
  }

  /**
   * `BotBucket::new`: the bucket of `period` at `date`.  Its key names the
   * period and shows `date` at the period's resolution, except that a week
   * bucket has no key.
   */
  function NewBotBucket(period: Period, date: CivilTime): (b: BotBucket)
    requires Valid(date)
    ensures Valid(b.date) && (period != Week ==> BucketKey(b) == Ok(PeriodName(period) + "_" + DateText(period, date)))
    ensures Valid(b.date) && (period == Week ==> BucketKey(b).Err?)
  {
    BotBucket(period, date)
  }

  /** The date part of a key is its shown fields' printed pieces, one after the other. */
  lemma DateTextPieces(p: Period, t: CivilTime)
    requires Valid(t) && p != Week
    ensures DateText(p, t) == Flatten(AllPieces(t)[..FieldCount(p)])
  {
    var ps := AllPieces(t);
    assert ps[..1][..0] == [];
    assert ps[..2][..1] == ps[..1];
    assert ps[..3][..2] == ps[..2];
    assert ps[..4][..3] == ps[..3];
    assert ps[..5][..4] == ps[..4];
    assert Flatten(ps[..1]) == ps[0];
    assert Flatten(ps[..2]) == ps[0] + ps[1];
    assert Flatten(ps[..3]) == ps[0] + ps[1] + ps[2];
    assert Flatten(ps[..4]) == ps[0] + ps[1] + ps[2] + ps[3];
    assert Flatten(ps[..5]) == ps[0] + ps[1] + ps[2] + ps[3] + ps[4];
  }

  /** The width of a key's date part. */
  function DateWidth(p: Period): nat
  {
    match p
    case Day => 10
    case Hour => 13
    case _ => 16
  }

  /** Every key of a period has the same length. */
  lemma BucketKeyLength(b: BotBucket)
    requires Valid(b.date) && b.period != Week
    ensures |BucketKey(b).value| == |PeriodName(b.period)| + 1 + DateWidth(b.period)
  {
  }

  /** Strict lexicographic order on the shown fields: the chronological order at the period's resolution. */
  predicate FieldsLt(a: seq<int>, b: seq<int>)
    decreases |a|
  {
    if a == [] then b != []
    else if b == [] then false
    else a[0] < b[0] || (a[0] == b[0] && FieldsLt(a[1..], b[1..]))
  }

  /** Comparing field sequences from the least significant end. */
  lemma {:induction false} FieldsLtSnoc(a: seq<int>, x: int, b: seq<int>, y: int)
    requires |a| == |b|
    ensures FieldsLt(a + [x], b + [y]) <==> FieldsLt(a, b) || (a == b && x < y)
    decreases |a|
  {
    if a != [] {
      assert (a + [x])[1..] == a[1..] + [x] && (b + [y])[1..] == b[1..] + [y];
      FieldsLtSnoc(a[1..], x, b[1..], y);
      assert a == [a[0]] + a[1..] && b == [b[0]] + b[1..];
    }
  }

  lemma SplitEqual(a1: string, b1: string, a2: string, b2: string)
    requires |a1| == |a2| && a1 + b1 == a2 + b2
    ensures a1 == a2 && b1 == b2
  {
    assert a1 == (a1 + b1)[..|a1|] && a2 == (a2 + b2)[..|a2|];
    assert b1 == (a1 + b1)[|a1|..] && b2 == (a2 + b2)[|a2|..];
  }

  /** Two pieces of equal length that order and compare as their fields do. */
  predicate PieceMatches(p1: string, p2: string, f1: int, f2: int)
  {
    |p1| == |p2| && (LexLt(p1, p2) <==> f1 < f2) && (p1 == p2 <==> f1 == f2)
  }

  /**
   * Concatenations of pieces that pairwise have equal lengths and order as
   * their fields do, order as the field sequences do.
   */
  lemma {:induction false} FlattenOrder(P1: seq<string>, P2: seq<string>, F1: seq<int>, F2: seq<int>)
    requires |P1| == |P2| == |F1| == |F2|
    requires forall i :: 0 <= i < |P1| ==> PieceMatches(P1[i], P2[i], F1[i], F2[i])
    ensures |Flatten(P1)| == |Flatten(P2)|
    ensures LexLt(Flatten(P1), Flatten(P2)) <==> FieldsLt(F1, F2)
    ensures Flatten(P1) == Flatten(P2) <==> F1 == F2
  {
    if P1 != [] {
      var n := |P1| - 1;
      FlattenOrder(P1[..n], P2[..n], F1[..n], F2[..n]);
      assert F1 == F1[..n] + [F1[n]] && F2 == F2[..n] + [F2[n]];
      FlattenOrderStep(Flatten(P1[..n]), P1[n], Flatten(P2[..n]), P2[n], F1[..n], F1[n], F2[..n], F2[n]);
      assert Flatten(P1) == Flatten(P1[..n]) + P1[n] && Flatten(P2) == Flatten(P2[..n]) + P2[n];
    }
  }

  /** One more piece at the end of two flattenings that already order as their fields. */
  lemma FlattenOrderStep(a1: string, p1: string, a2: string, p2: string, g1: seq<int>, f1: int, g2: seq<int>, f2: int)
    requires |a1| == |a2| && |g1| == |g2|
    requires (LexLt(a1, a2) <==> FieldsLt(g1, g2)) && (a1 == a2 <==> g1 == g2)
    requires PieceMatches(p1, p2, f1, f2)
    ensures LexLt(a1 + p1, a2 + p2) <==> FieldsLt(g1 + [f1], g2 + [f2])
    ensures a1 + p1 == a2 + p2 <==> g1 + [f1] == g2 + [f2]
  {
    FieldsLtSnoc(g1, f1, g2, f2);
    LexLtConcat(a1, p1, a2, p2);
    if a1 + p1 == a2 + p2 {
      SplitEqual(a1, p1, a2, p2);
    }
    if g1 + [f1] == g2 + [f2] {
      assert g1 == (g1 + [f1])[..|g1|] && g2 == (g2 + [f2])[..|g2|];
      assert f1 == (g1 + [f1])[|g1|] && f2 == (g2 + [f2])[|g2|];
    }
  }

  /** One printed piece orders as its field does. */
  lemma PieceOrder(t1: CivilTime, t2: CivilTime, i: nat)
    requires Valid(t1) && Valid(t2) && i < 5
    ensures |AllPieces(t1)[i]| == |AllPieces(t2)[i]|
    ensures LexLt(AllPieces(t1)[i], AllPieces(t2)[i]) <==> AllFields(t1)[i] < AllFields(t2)[i]
    ensures AllPieces(t1)[i] == AllPieces(t2)[i] <==> AllFields(t1)[i] == AllFields(t2)[i]
  {
    var a, b := AllFields(t1)[i] as nat, AllFields(t2)[i] as nat;
    if i == 0 {
      PadOrder(a, b, 4);
    } else {
      var sep := AllPieces(t1)[i][..1];
      PadOrder(a, b, 2);
      assert AllPieces(t1)[i] == sep + Pad(a, 2) && AllPieces(t2)[i] == sep + Pad(b, 2);
      LexLtConcat(sep, Pad(a, 2), sep, Pad(b, 2));
      if AllPieces(t1)[i] == AllPieces(t2)[i] {
        SplitEqual(sep, Pad(a, 2), sep, Pad(b, 2));
      }
    }
  }

  /**
   * Keys of one period sort exactly as their instants do at that period's
   * resolution: the key of an earlier bucket is lexicographically smaller, and
   * two keys are equal exactly when the shown fields are, which is what a
   * range query on the sort key relies on.
   */
  lemma BucketKeyOrder(p: Period, t1: CivilTime, t2: CivilTime)
    requires p != Week && Valid(t1) && Valid(t2)
    ensures LexLt(BucketKey(BotBucket(p, t1)).value, BucketKey(BotBucket(p, t2)).value) <==> FieldsLt(Fields(p, t1), Fields(p, t2))
    ensures BucketKey(BotBucket(p, t1)).value == BucketKey(BotBucket(p, t2)).value <==> Fields(p, t1) == Fields(p, t2)
  {
    var k := FieldCount(p);
    var P1, P2 := AllPieces(t1)[..k], AllPieces(t2)[..k];
    forall i | 0 <= i < k
      ensures PieceMatches(P1[i], P2[i], Fields(p, t1)[i], Fields(p, t2)[i])
    {
      PieceOrder(t1, t2, i);
    }
    FlattenOrder(P1, P2, Fields(p, t1), Fields(p, t2));
    DateTextPieces(p, t1);
    DateTextPieces(p, t2);
    var prefix := PeriodName(p) + "_";
    LexLtConcat(prefix, DateText(p, t1), prefix, DateText(p, t2));
    LexLtIrreflexive(prefix);
    if BucketKey(BotBucket(p, t1)).value == BucketKey(BotBucket(p, t2)).value {
      SplitEqual(prefix, DateText(p, t1), prefix, DateText(p, t2));
    }
  }

  /** Two-digit padding, digit by digit. */
  lemma Pad2(n: nat)
    requires n < 100
    ensures Pad(n, 2) == [Digit(n / 10), Digit(n % 10)]
  {
    var q := n / 10;
    assert q < 10 && q / 10 == 0 && q % 10 == q;
    assert Pad(q, 1) == [Digit(q)];
  }

  lemma PadExamples()
    ensures Pad(2024, 4) == "2024"
    ensures Pad(3, 2) == "03" && Pad(9, 2) == "09" && Pad(10, 2) == "10" && Pad(7, 2) == "07"
  {
    Pad2(3); Pad2(9); Pad2(10); Pad2(7); Pad2(20);
    assert Pad(2024, 4) == Pad(202, 3) + [Digit(4)];
    assert Pad(202, 3) == Pad(20, 2) + [Digit(2)];
  }

  /** The key keeps the exact minute: 10:07:42 stays 10:07 in a 15-minute bucket's key, with the seconds dropped. */
  lemma MinuteKeyNotRounded()
    ensures BucketKey(BotBucket(Minute15, CivilTime(2024, 3, 9, 10, 7, 42))) == Ok("minute_15_2024-03-09 10:07")
  {
    PadExamples();
    var t := CivilTime(2024, 3, 9, 10, 7, 42);
    assert DateText(Minute15, t) == "2024" + "-" + "03" + "-" + "09" + " " + "10" + ":" + "07";
    assert "2024" + "-" + "03" + "-" + "09" + " " + "10" + ":" + "07" == "2024-03-09 10:07";
    assert PeriodName(Minute15) + "_" + "2024-03-09 10:07" == "minute_15_2024-03-09 10:07";
  }

  /** An hour bucket's key shows the hour only. */
  lemma HourKeyExample()
    ensures BucketKey(BotBucket(Hour, CivilTime(2024, 3, 9, 10, 7, 42))) == Ok("hour_2024-03-09 10")
  {
    PadExamples();
    assert DateText(Hour, CivilTime(2024, 3, 9, 10, 7, 42)) == "2024-03-09 10";
    assert PeriodName(Hour) + "_" + "2024-03-09 10" == "hour_2024-03-09 10";
  }

  /** A day bucket's key shows the date only. */
  lemma DayKeyExample()
    ensures BucketKey(BotBucket(Day, CivilTime(2024, 3, 9, 10, 7, 42))) == Ok("day_2024-03-09")
  {
    PadExamples();
    assert DateText(Day, CivilTime(2024, 3, 9, 10, 7, 42)) == "2024-03-09";
    assert PeriodName(Day) + "_" + "2024-03-09" == "day_2024-03-09";
  }

  // ---------------------------------------------------------------------------
  // The absolute-time window

  /** A query over one period between two epoch-millisecond instants. */
  datatype AllBuckets = AllBuckets(period: Period, start: int, end: int)

  /** Builds the window "from `past_ms` before `search_til` until `search_til`". */
  class AllBucketsBuilder {
    var period: Period
    /** The look-back, in milliseconds. */
    var pastMs: int
    /** The end of the window, in epoch milliseconds. */
    var searchTil: int

    /** `AllBucketsBuilder::new`: a 15-minute look-back ending at `now`. */
    constructor (period: Period, now: int)
      ensures this.period == period && pastMs == 15 * 60 * 1000 && searchTil == now
    {
      this.period := period;
      pastMs := 15 * 60 * 1000;
      searchTil := now;
    }

    /** Sets the look-back only; returns the builder itself for chaining. */
    method PastMs(durationMs: int) returns (self: AllBucketsBuilder)
      modifies this
      ensures self == this
      ensures pastMs == durationMs && period == old(period) && searchTil == old(searchTil)
    {
      pastMs := durationMs;
      self := this;
    }

    /** Sets the end only; returns the builder itself for chaining. */
    method SearchTil(date: int) returns (self: AllBucketsBuilder)
      modifies this
      ensures self == this
      ensures searchTil == date && period == old(period) && pastMs == old(pastMs)
    {
      searchTil := date;
      self := this;
    }

    /** `build`: the window is exactly `past_ms` long and ends at `search_til`; it is never reversed for a non-negative look-back. */
    function Build(): (r: AllBuckets)
      reads this
      ensures r.period == period && r.end == searchTil
      ensures r.end - r.start == pastMs
      ensures pastMs >= 0 ==> r.start <= r.end
    {
      AllBuckets(period, searchTil - pastMs, searchTil)
    }
  }

  /** A one-hour, 15-minute-granularity window ending at `t` starts 3,600,000 ms before `t`. */
  method OneHourWindow(t: int) returns (w: AllBuckets)
    ensures w == AllBuckets(Minute15, t - 3600000, t)
  {
    var b := new AllBucketsBuilder(Minute15, t);
    var b2 := b.PastMs(60 * 60 * 1000);
    var b3 := b2.SearchTil(t);
    w := b3.Build();
  }
}
