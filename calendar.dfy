/**
 * Local date-times as whole seconds on the local wall clock. Midnight and week arithmetic are
 * exact; month arithmetic (`LocalDateTime.minusMonths`) is a parameter with the laws it obeys.
 */
module Calendar {
  const SECONDS_PER_DAY: int := 86400
  const SECONDS_PER_WEEK: int := 7 * SECONDS_PER_DAY

  /** `with(LocalTime.MIN)`: the start of the day that contains `t`. */
  function Midnight(t: int): (m: int)
    ensures m <= t < m + SECONDS_PER_DAY
    ensures m % SECONDS_PER_DAY == 0
  {
    t - t % SECONDS_PER_DAY
  }

  /** Two readings of the clock fall on the same day. */
  predicate SameDay(t: int, u: int) {
    Midnight(t) == Midnight(u)
  }

  /** `t.minusMonths(n)`, and `t.minusYears(n)` as `t.minusMonths(12 n)`. */
  datatype Months = Months(minus: (int, int) -> int)

  /**
   * Going back months goes back in time, further for more months, and one month goes back
   * between 28 and 31 days.
   */
  ghost predicate Lawful(months: Months) {
    && (forall t, n :: 0 <= n ==> months.minus(t, n) <= t)
    && (forall t, m, n :: 0 <= m <= n ==> months.minus(t, n) <= months.minus(t, m))
    && (forall t :: t - 31 * SECONDS_PER_DAY <= months.minus(t, 1) <= t - 28 * SECONDS_PER_DAY)
  }
}
