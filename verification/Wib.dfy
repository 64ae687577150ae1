/** Jakarta time, a fixed seven hours ahead of UTC; instants are seconds. */
module Wib {
  function WibDay(t: int): int {
    (t + 7 * 3600) / 86400
  }

  /** Midnight at which the day begins. */
  function StartOf(day: int): int {
    day * 86400 - 7 * 3600
  }

  /** The instants from the start of one day up to the start of the day after another are those of the days between. */
  lemma DaysOfRange(t: int, fromDay: int, toDay: int)
    ensures StartOf(fromDay) <= t < StartOf(toDay + 1) <==> fromDay <= WibDay(t) <= toDay
  {
    var s := t + 7 * 3600;
    assert s == 86400 * (s / 86400) + s % 86400;
  }
}
