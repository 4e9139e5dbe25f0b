/**
 * Instants as milliseconds since the Unix epoch. A date string supplied
 * by a client may fail to parse; JavaScript then holds an invalid Date,
 * whose time value is NaN, and every ordering comparison with it is false.
 */
module Dates {

  const DayMs: int := 24 * 60 * 60 * 1000

  datatype Date = At(ms: int) | InvalidDate

  /**
   * A date string a client sent, together with the instant `new Date`
   * parses it to; only whether the text is empty matters beyond that.
   */
  datatype DateText = DateText(text: string, at: Date)

  /** `new Date(d) >= new Date(bound)`. */
  predicate OnOrAfter(d: Date, bound: Date) {
    d.At? && bound.At? && d.ms >= bound.ms
  }

  /** `new Date(d) <= new Date(bound)`. */
  predicate OnOrBefore(d: Date, bound: Date) {
    d.At? && bound.At? && d.ms <= bound.ms
  }

  /**
   * `new Date(t.toISOString().split('T')[0])`: the UTC midnight that starts
   * the day containing instant `t`.
   */
  function DayStart(t: int): (r: int)
    ensures r <= t < r + DayMs
    ensures r % DayMs == 0
  {
    t - t % DayMs
  }
}
