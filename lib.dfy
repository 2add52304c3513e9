/** The crate root's own copy of the refresh-time parser. */
module Lib {
  import opened Wrappers
  import opened Decimal
  import AppParams

  /**
   * The crate root's `num_to_duration`, written out again as the source does;
   * it agrees with the parameter module's copy on every input.
   */
  function NumToDuration(value: string): (r: Result<int, string>)
    ensures r == AppParams.NumToDuration(value)
    ensures r.Ok? && 10 <= r.value <= 600
  {
    match ParseI64(value)
    case Some(secs) =>
      if secs > 600 then Ok(600)
      else if secs < 10 then Ok(10)
      else Ok(secs)
    case None => Ok(10)
  }
}
