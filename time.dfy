/**
 * Instants are integer milliseconds of local wall-clock time. A day is a
 * fixed 86,400,000 ms (no daylight-saving transitions), so local midnight is
 * a multiple of the day length.
 */
module Time {

  const MS_PER_SECOND: int := 1000
  const SECONDS_PER_MINUTE: int := 60
  const SECONDS_PER_HOUR: int := 3600
  const SECONDS_PER_DAY: int := 3600 * 24
  const MS_PER_DAY: int := 86_400_000

  predicate IsMidnight(t: int) {
    t % MS_PER_DAY == 0
  }

  /** `d.setHours(0, 0, 0, 0)`: the midnight that starts the day of `t`. */
  function StartOfDay(t: int): (m: int)
    ensures IsMidnight(m) && m <= t < m + MS_PER_DAY
  {
    t - t % MS_PER_DAY
  }

  /** A positive multiple of `k` is at least `k`. */
  lemma {:induction false} MulAtLeast(d: int, k: int)
    requires d >= 1 && k > 0
    ensures d * k >= k
  {
    if d > 1 {
      MulAtLeast(d - 1, k);
      assert d * k == (d - 1) * k + k;
    }
  }

  /** Division with a remainder in range has one answer. */
  lemma DivModUnique(a: int, k: int, q: int, r: int)
    requires k > 0 && a == q * k + r && 0 <= r < k
    ensures a / k == q && a % k == r
  {
    var q', r' := a / k, a % k;
    assert a == q' * k + r';
    if q' > q {
      MulAtLeast(q' - q, k);
    } else if q' < q {
      MulAtLeast(q - q', k);
    }
  }

  /** The midnight that starts a day is the only midnight in that day. */
  lemma StartOfDayUnique(t: int, m: int)
    requires IsMidnight(m) && m <= t < m + MS_PER_DAY
    ensures StartOfDay(t) == m
  {
    var q := m / MS_PER_DAY;
    assert m == q * MS_PER_DAY;
    DivModUnique(t, MS_PER_DAY, q, t - m);
  }

  /** Normalising to midnight twice is normalising once. */
  lemma StartOfDayIdempotent(t: int)
    ensures StartOfDay(StartOfDay(t)) == StartOfDay(t)
  {
    StartOfDayUnique(StartOfDay(t), StartOfDay(t));
  }

  /** Adding whole days keeps the time of day; in particular a midnight stays a midnight. */
  lemma AddDaysKeepsTimeOfDay(t: int, days: int)
    ensures (t + days * MS_PER_DAY) % MS_PER_DAY == t % MS_PER_DAY
  {
    var q, r := t / MS_PER_DAY, t % MS_PER_DAY;
    assert t + days * MS_PER_DAY == (q + days) * MS_PER_DAY + r;
    DivModUnique(t + days * MS_PER_DAY, MS_PER_DAY, q + days, r);
  }
}
