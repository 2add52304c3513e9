/** Command-line parameters of the dashboard and the refresh-time parser. */
module AppParams {
  import opened Wrappers
  import opened Decimal

  const MIN_REFRESH_SECS: int := 10
  const MAX_REFRESH_SECS: int := 600

  /** The parsed command line: refresh interval in seconds, config path, bus key, debug switch. */
  datatype AppParams = AppParams(refreshTime: int, configPath: Option<string>, bus: Option<string>, debug: bool)

  /**
   * `num_to_duration`: the refresh interval in seconds.  A number is clamped to
   * [10, 600]; text that is not a 64-bit integer gives 10.  It never fails.
   */
  function NumToDuration(value: string): (r: Result<int, string>)
    ensures r.Ok? && MIN_REFRESH_SECS <= r.value <= MAX_REFRESH_SECS
    ensures ParseI64(value).None? ==> r.value == MIN_REFRESH_SECS
    ensures ParseI64(value).Some? ==>
              var secs := ParseI64(value).value;
              (secs > MAX_REFRESH_SECS ==> r.value == MAX_REFRESH_SECS) &&
              (secs < MIN_REFRESH_SECS ==> r.value == MIN_REFRESH_SECS) &&
              (MIN_REFRESH_SECS <= secs <= MAX_REFRESH_SECS ==> r.value == secs)
  {
    match ParseI64(value)
    case Some(secs) =>
      if secs > 600 then Ok(600)
      else if secs < 10 then Ok(10)
      else Ok(secs)
    case None => Ok(10)
  }

  /** A number written in decimal within [10, 600] is taken as it is. */
  lemma InRangePassesThrough(n: nat)
    requires MIN_REFRESH_SECS <= n <= MAX_REFRESH_SECS
    ensures NumToDuration(DecimalString(n)) == Ok(n)
  {
    ParseDecimalString(n);
  }

  /** Any representable number above 600 is capped at 600 ... */
  lemma LargeIsCapped(n: nat)
    requires MAX_REFRESH_SECS < n <= I64_MAX
    ensures NumToDuration(DecimalString(n)) == Ok(MAX_REFRESH_SECS)
  {
    ParseDecimalString(n);
  }

  /** ... but a number too large for 64 bits fails to parse and gives the minimum, 10. */
  lemma OverflowGivesMinimum(n: nat)
    requires n > I64_MAX
    ensures NumToDuration(DecimalString(n)) == Ok(MIN_REFRESH_SECS)
  {
    ParseOverflow(n);
  }

  /** Negative numbers give the minimum. */
  lemma NegativeGivesMinimum(n: nat)
    requires 0 < n <= -I64_MIN
    ensures NumToDuration("-" + DecimalString(n)) == Ok(MIN_REFRESH_SECS)
  {
    ParseNegativeDecimalString(n);
  }
}
