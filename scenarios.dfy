/**
 * Client code: what a caller of the tracker can conclude from the contracts
 * alone, for a few concrete histories and for some that hold over any stored
 * profile and any instants.
 */
module Scenarios {
  import opened Wrappers
  import opened JsNumbers
  import opened Time
  import opened Cycle
  import opened ProfileStore
  import opened Tracker
  import opened Ui

  /** 2024-01-01 00:00:00 local time, in ms. */
  const JAN_1_2024: int := 1_704_067_200_000
  const MS_PER_HOUR: int := 3_600_000

  /** A fresh tracker over empty storage, initialised at 9:00 on the first of January. */
  method InitializedOnJan1() returns (tracker: DonationTracker)
    ensures fresh(tracker) && fresh(tracker.storage)
    ensures tracker.lastDonationDate == Some(JAN_1_2024) && tracker.userName == Some("Alex")
    ensures tracker.donationCount == Int(2) && tracker.Mirrored()
  {
    var store := new LocalStorage(map[]);
    tracker := new DonationTracker(store, JAN_1_2024, {});
    assert tracker.Profile() == EMPTY_PROFILE;
    assert !tracker.IsEligible() && tracker.TimeRemaining() == None;
    var failed := tracker.InitializeUser("Alex", 2, JAN_1_2024 + 9 * MS_PER_HOUR, None);
  }

  /** At the very instant the cycle ends the user is eligible and the countdown still shows all zeros. */
  method AtCycleEnd() {
    var tracker := InitializedOnJan1();
    tracker.Tick(JAN_1_2024 + CYCLE_MS);
    CycleStates(tracker.lastDonationDate, tracker.now);
    assert tracker.IsEligible() && tracker.TimeRemaining() == Some(Countdown(0, 0, 0, 0));
  }

  /** A millisecond after the cycle ends the user is still eligible and the countdown is gone. */
  method JustAfterCycleEnd() {
    var tracker := InitializedOnJan1();
    tracker.Tick(JAN_1_2024 + CYCLE_MS + 1);
    assert tracker.IsEligible() && tracker.TimeRemaining() == None;
  }

  /** Twelve hours before the cycle ends: not yet eligible, 0 days 12 hours left, the day-before reminder. */
  method TwelveHoursBefore() {
    var tracker := InitializedOnJan1();
    tracker.Tick(JAN_1_2024 + 56 * MS_PER_DAY - 12 * MS_PER_HOUR);
    assert tracker.TimeDifference() == Some(43_200_000);
    assert !tracker.IsEligible();
    TwelveHoursLeft();
    assert tracker.TimeRemaining() == Some(Countdown(0, 12, 0, 0));
    assert ReminderMessage(tracker.DaysUntilNext()) == Some(DayBefore.Message());
  }

  /** Four days before the cycle ends there is no reminder yet. */
  method FourDaysBefore() {
    var tracker := InitializedOnJan1();
    tracker.Tick(JAN_1_2024 + 52 * MS_PER_DAY);
    assert tracker.TimeDifference() == Some(4 * MS_PER_DAY);
    DaysUntilNextIsWholeDays(4 * MS_PER_DAY);
    assert (4 * MS_PER_DAY) / MS_PER_DAY == 4;
    assert tracker.DaysUntilNext() == Some(4) && ReminderMessage(tracker.DaysUntilNext()) == None;
  }

  /** Twelve hours before the cycle ends, the countdown reads 0 days and 12 hours. */
  lemma TwelveHoursLeft()
    ensures TimeRemaining(Some(43_200_000)) == Some(Countdown(0, 12, 0, 0))
  {
    assert 43_200_000 / MS_PER_SECOND == 43_200;
    assert 43_200 / SECONDS_PER_DAY == 0 && (43_200 % SECONDS_PER_DAY) / SECONDS_PER_HOUR == 12;
  }

  /** Two donations recorded on the same day count twice and keep that day's date and the name. */
  method RecordTwiceSameDay(entries: map<string, string>, unreadable: set<string>, clock: int, first: int, second: int)
    requires StartOfDay(first) == StartOfDay(second)
  {
    var store := new LocalStorage(entries);
    var tracker := new DonationTracker(store, clock, unreadable);
    var count, name := tracker.donationCount, tracker.userName;
    var failed := tracker.RecordDonationToday(first, None);
    failed := tracker.RecordDonationToday(second, None);
    assert tracker.donationCount == count.Add(1).Add(1) == count.Add(2);
    assert tracker.lastDonationDate == Some(StartOfDay(first)) && tracker.userName == name;
  }

  /** A second reset changes nothing that the first one did not. */
  method ResetTwice(entries: map<string, string>, clock: int) {
    var store := new LocalStorage(entries);
    var tracker := new DonationTracker(store, clock, {});
    var failed := tracker.ResetData(None);
    var profile, stored := tracker.Profile(), store.entries;
    failed := tracker.ResetData(None);
    assert tracker.Profile() == profile == EMPTY_PROFILE && store.entries == stored;
  }

  /** A write that throws leaves memory as it was, while the earlier writes stay in storage. */
  method WriteFailure(clock: int) {
    var store := new LocalStorage(map[]);
    var tracker := new DonationTracker(store, clock, {});
    var failed := tracker.InitializeUser("Alex", 2, JAN_1_2024, Some(1));
    assert failed && tracker.Profile() == EMPTY_PROFILE;
    assert store.entries == map[KEY_NAME := "Alex"];
    var restarted := new DonationTracker(store, clock, {});
    assert restarted.userName == Some("Alex") && restarted.lastDonationDate == None;
  }

  /** The boundaries of the countdown: absent before zero, all zeros at zero. */
  method CountdownBoundaries() {
    assert TimeRemaining(None) == None && TimeRemaining(Some(-1)) == None;
    assert TimeRemaining(Some(0)) == Some(Countdown(0, 0, 0, 0)) && IsEligible(Some(0));
  }

  /** The boundaries of the reminder tiers. */
  method ReminderBoundaries() {
    assert ReminderMessage(Some(4)) == None && ReminderMessage(Some(-1)) == None && ReminderMessage(None) == None;
    assert ReminderMessage(Some(0)) == ReminderMessage(Some(1)) == Some(DayBefore.Message());
    assert ReminderMessage(Some(2)) == Some(TwoDays.Message()) && ReminderMessage(Some(3)) == Some(ThreeDays.Message());
  }
}
