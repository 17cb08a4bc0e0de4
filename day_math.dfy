/**
 * Whole-day differences between millisecond timestamps, as dayjs computes
 * `later.diff(earlier, 'days')`: the millisecond difference divided by the
 * length of a day, truncated toward zero.
 */
module DayMath {

  /** Milliseconds in one day. */
  const MsPerDay: int := 86_400_000

  /** Whole days from `earlier` to `later`, truncated toward zero (negative when `later` comes first). */
  function WholeDays(later: int, earlier: int): int {
    var diff := later - earlier;
    if diff >= 0 then diff / MsPerDay else -((-diff) / MsPerDay)
  }

  /** The day count is the millisecond difference truncated toward zero: it never overshoots, and misses by less than a day. */
  lemma WholeDaysBounds(later: int, earlier: int)
    ensures var d := WholeDays(later, earlier);
      && (later >= earlier ==> 0 <= d && d * MsPerDay <= later - earlier < (d + 1) * MsPerDay)
      && (later < earlier ==> d <= 0 && (d - 1) * MsPerDay < later - earlier <= d * MsPerDay)
  {
  }

  /** Swapping the two instants negates the day count (truncation is symmetric about zero). */
  lemma WholeDaysAntisymmetric(a: int, b: int)
    ensures WholeDays(a, b) == -WholeDays(b, a)
  {
  }

  /** For a positive threshold, "at least n whole days" means "at least n days of milliseconds". */
  lemma DaysAtLeast(later: int, earlier: int, n: int)
    requires n >= 1
    ensures WholeDays(later, earlier) >= n <==> later - earlier >= n * MsPerDay
  {
    var d := WholeDays(later, earlier);
    WholeDaysBounds(later, earlier);
    if later >= earlier {
      if d >= n {
        assert d * MsPerDay >= n * MsPerDay;
      } else {
        assert (d + 1) * MsPerDay <= n * MsPerDay;
      }
    }
  }
}
