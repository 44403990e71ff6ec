/**
 * The donation cycle: from the last donation date and the current instant,
 * the next eligible date, the signed time left, the eligibility flag and the
 * days/hours/minutes/seconds countdown.
 */
module Cycle {
  import opened Wrappers
  import opened Time

  /** Days that must pass after a donation before the next one. */
  const DONATION_CYCLE_DAYS: int := 56

  /** The cycle in milliseconds, under the fixed-length day. */
  const CYCLE_MS: int := DONATION_CYCLE_DAYS * MS_PER_DAY

  /** The countdown shown while waiting. */
  datatype Countdown = Countdown(days: int, hours: int, minutes: int, seconds: int) {

    /** Each unit below the largest stays below its carry limit. */
    predicate InRange() {
      days >= 0 && 0 <= hours < 24 && 0 <= minutes < 60 && 0 <= seconds < 60
    }

    /** The number of whole seconds the countdown denotes. */
    function TotalSeconds(): int {
      ((days * 24 + hours) * 60 + minutes) * 60 + seconds
    }
  }

  /**
   * `nextDonationDate`: the last date moved forward by the cycle; a calendar
   * addition of 56 days, which under the fixed-length day is 56 whole days.
   */
  function NextDonationDate(last: Option<int>): (next: Option<int>)
    ensures next.Some? <==> last.Some?
    ensures next.Some? ==> next.value - last.value == DONATION_CYCLE_DAYS * MS_PER_DAY
    ensures next.Some? && IsMidnight(last.value) ==> IsMidnight(next.value)
  {
    match last
    case None => None
    case Some(d) =>
      AddDaysKeepsTimeOfDay(d, DONATION_CYCLE_DAYS);
      Some(d + DONATION_CYCLE_DAYS * MS_PER_DAY)
  }

  /** `timeDifference`: how far the next date lies ahead of `now` (negative once past). */
  function TimeDifference(next: Option<int>, now: int): (diff: Option<int>)
    ensures diff.Some? <==> next.Some?
    ensures diff.Some? ==> now + diff.value == next.value
  {
    match next
    case None => None
    case Some(n) => Some(n - now)
  }

  /** `isEligible`: a difference is known and is not positive. */
  predicate IsEligible(diff: Option<int>)
    ensures IsEligible(diff) ==> diff.Some?
    ensures diff.Some? ==> IsEligible(diff) || TimeRemaining(diff).Some?
    ensures IsEligible(diff) && TimeRemaining(diff).Some? ==> diff.value == 0
  {
    diff.Some? && diff.value <= 0
  }

  /** The base conversion of a number of seconds into days, hours, minutes and seconds. */
  lemma Breakdown(total: int)
    requires total >= 0
    ensures var c := Countdown(total / SECONDS_PER_DAY, (total % SECONDS_PER_DAY) / SECONDS_PER_HOUR,
                               (total % SECONDS_PER_HOUR) / SECONDS_PER_MINUTE, total % SECONDS_PER_MINUTE);
            c.InRange() && c.TotalSeconds() == total
  {
    var days, rest := total / 86400, total % 86400;
    var hours, rest' := rest / 3600, rest % 3600;
    assert total == (24 * days + hours) * 3600 + rest';
    DivModUnique(total, 3600, 24 * days + hours, rest');
    var minutes, seconds := rest' / 60, rest' % 60;
    assert total == (60 * (24 * days + hours) + minutes) * 60 + seconds;
    DivModUnique(total, 60, 60 * (24 * days + hours) + minutes, seconds);
  }

  /**
   * `timeRemaining`: absent when no difference is known or the date has
   * passed; otherwise the whole seconds left, broken down without rounding.
   */
  function TimeRemaining(diff: Option<int>): (r: Option<Countdown>)
    ensures r.None? <==> diff.None? || diff.value < 0
    ensures r.Some? ==> r.value.InRange() && r.value.TotalSeconds() == diff.value / MS_PER_SECOND
    ensures r.Some? ==> diff.value - 999 <= r.value.TotalSeconds() * MS_PER_SECOND <= diff.value
  {
    if diff.None? || diff.value < 0 then None
    else
      var totalSeconds := diff.value / MS_PER_SECOND;
      var days := totalSeconds / SECONDS_PER_DAY;
      var hours := (totalSeconds % SECONDS_PER_DAY) / SECONDS_PER_HOUR;
      var minutes := (totalSeconds % SECONDS_PER_HOUR) / SECONDS_PER_MINUTE;
      var seconds := totalSeconds % SECONDS_PER_MINUTE;
      Breakdown(totalSeconds);
      Some(Countdown(days, hours, minutes, seconds))
  }

  /** `daysUntilNext`: the day part of the countdown, absent with it (`timeRemaining?.days`). */
  function DaysUntilNext(r: Option<Countdown>): (d: Option<int>)
    ensures d.Some? <==> r.Some?
    ensures d.Some? && r.value.InRange() ==>
              0 <= d.value && d.value * SECONDS_PER_DAY <= r.value.TotalSeconds() < (d.value + 1) * SECONDS_PER_DAY
  {
    match r
    case None => None
    case Some(c) => Some(c.days)
  }

  /** The days shown are the whole days left: the difference divided by the day length. */
  lemma DaysUntilNextIsWholeDays(diff: int)
    requires diff >= 0
    ensures DaysUntilNext(TimeRemaining(Some(diff))) == Some(diff / MS_PER_DAY)
  {
    var total, ms := diff / 1000, diff % 1000;
    var days, rest := total / 86400, total % 86400;
    assert diff == days * MS_PER_DAY + (rest * 1000 + ms);
    DivModUnique(diff, MS_PER_DAY, days, rest * 1000 + ms);
  }

  /**
   * The states of the cycle from the last date and `now`: with no last date
   * there is neither eligibility nor a countdown; otherwise eligibility starts
   * when the cycle has elapsed, the countdown lasts until it has, and both
   * hold at exactly that instant, where the countdown reads all zeros.
   */
  lemma CycleStates(last: Option<int>, now: int)
    ensures var diff := TimeDifference(NextDonationDate(last), now);
            && (last.None? <==> !IsEligible(diff) && TimeRemaining(diff).None?)
            && (IsEligible(diff) <==> last.Some? && last.value + CYCLE_MS <= now)
            && (TimeRemaining(diff).Some? <==> last.Some? && now <= last.value + CYCLE_MS)
            && (IsEligible(diff) && TimeRemaining(diff).Some? <==> last.Some? && now == last.value + CYCLE_MS)
            && (last.Some? && now == last.value + CYCLE_MS ==> TimeRemaining(diff) == Some(Countdown(0, 0, 0, 0)))
  {
  }

  /** As `now` advances, the countdown never shows more time. */
  lemma CountdownNeverGrows(last: int, now: int, later: int)
    requires now <= later <= last + CYCLE_MS
    ensures var before := TimeRemaining(TimeDifference(NextDonationDate(Some(last)), now));
            var after := TimeRemaining(TimeDifference(NextDonationDate(Some(last)), later));
            before.Some? && after.Some? && after.value.TotalSeconds() <= before.value.TotalSeconds()
  {
  }
}
