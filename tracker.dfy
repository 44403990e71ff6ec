/**
 * The donation tracker: the in-memory profile mirroring local storage, the
 * current instant, the derived cycle values, and the three operations that
 * write through to storage.
 */
module Tracker {
  import opened Wrappers
  import opened JsNumbers
  import opened Time
  import opened Cycle
  import opened ProfileStore

  /**
   * Every operation that touches storage takes `failingCall`: the position,
   * counted from 0 within that operation, of the storage call that throws, or
   * None when none does. A throw skips the rest of the operation, so the
   * in-memory profile is left as it was, while the storage writes that came
   * before it stay written.
   */
  predicate Throws(failingCall: Option<nat>, calls: nat) {
    failingCall.Some? && failingCall.value < calls
  }

  class DonationTracker {
    const storage: LocalStorage
    var lastDonationDate: Option<int>
    var userName: Option<string>
    var donationCount: Number
    /** The instant of the latest clock tick. */
    var now: int

    function Profile(): DonationProfile
      reads this
    {
      DonationProfile(lastDonationDate, userName, donationCount)
    }

    /** Storage, read back at start-up without failures, gives the in-memory profile. */
    ghost predicate Mirrored()
      reads this, storage
      ensures Mirrored() ==> (userName.Some? <==> KEY_NAME in storage.entries)
      ensures Mirrored() && userName.Some? ==> storage.entries[KEY_NAME] == userName.value
      ensures Mirrored() && lastDonationDate.Some? ==>
                KEY_DATE in storage.entries && DateFromStorage(storage.entries[KEY_DATE]) == lastDonationDate
      ensures Mirrored() && KEY_COUNT in storage.entries && storage.entries[KEY_COUNT] != "" ==>
                ParseInt(storage.entries[KEY_COUNT]) == donationCount
    {
      LoadProfile(storage.entries, {}) == Profile()
    }

    /** Start-up: every field is loaded from storage, where the keys in `unreadable` throw on read. */
    constructor (storage: LocalStorage, clock: int, unreadable: set<string>)
      ensures this.storage == storage && now == clock
      ensures Profile() == LoadProfile(storage.entries, unreadable)
    {
      var date := storage.GetItem(KEY_DATE, KEY_DATE in unreadable);
      var name := storage.GetItem(KEY_NAME, KEY_NAME in unreadable);
      var count := storage.GetItem(KEY_COUNT, KEY_COUNT in unreadable);
      this.storage := storage;
      lastDonationDate := LoadDate(date);
      userName := LoadName(name);
      donationCount := LoadCount(count);
      now := clock;
    }

    /** The next eligible date: the cycle's length after the last date. */
    function NextDonationDate(): (next: Option<int>)
      reads this
      ensures next.Some? <==> lastDonationDate.Some?
      ensures next.Some? ==> next.value == lastDonationDate.value + CYCLE_MS
    {
      Cycle.NextDonationDate(lastDonationDate)
    }

    /** The signed time left: the last date plus the cycle, minus `now`. */
    function TimeDifference(): (diff: Option<int>)
      reads this
      ensures diff.Some? <==> lastDonationDate.Some?
      ensures diff.Some? ==> diff.value == lastDonationDate.value + CYCLE_MS - now
    {
      Cycle.TimeDifference(NextDonationDate(), now)
    }

    /** Eligible exactly once the cycle has elapsed since the last date. */
    predicate IsEligible()
      reads this
      ensures IsEligible() <==> lastDonationDate.Some? && lastDonationDate.value + CYCLE_MS <= now
    {
      CycleStates(lastDonationDate, now);
      Cycle.IsEligible(TimeDifference())
    }

    /** A countdown exactly until the cycle has elapsed, with every unit in range. */
    function TimeRemaining(): (r: Option<Countdown>)
      reads this
      ensures r.Some? <==> lastDonationDate.Some? && now <= lastDonationDate.value + CYCLE_MS
      ensures r.Some? ==> r.value.InRange()
      ensures r.Some? ==> r.value.TotalSeconds() == (lastDonationDate.value + CYCLE_MS - now) / MS_PER_SECOND
      ensures r.Some? ==> lastDonationDate.value + CYCLE_MS - now - 999 <= r.value.TotalSeconds() * MS_PER_SECOND
                            <= lastDonationDate.value + CYCLE_MS - now
    {
      CycleStates(lastDonationDate, now);
      Cycle.TimeRemaining(TimeDifference())
    }

    /** The whole days left while counting down. */
    function DaysUntilNext(): (d: Option<int>)
      reads this
      ensures d.Some? <==> lastDonationDate.Some? && now <= lastDonationDate.value + CYCLE_MS
      ensures d.Some? ==> d.value == (lastDonationDate.value + CYCLE_MS - now) / MS_PER_DAY
    {
      if lastDonationDate.Some? && now <= lastDonationDate.value + CYCLE_MS then
        DaysUntilNextIsWholeDays(lastDonationDate.value + CYCLE_MS - now);
        Cycle.DaysUntilNext(TimeRemaining())
      else
        Cycle.DaysUntilNext(TimeRemaining())
    }

    /** The one-second timer: the clock gives a new instant, which need not be later. */
    method Tick(clock: int)
      modifies this`now
      ensures now == clock
    {
      now := clock;
    }

    /** `initializeUser`: writes name, count and the date's midnight, in that order, then sets all three. */
    method InitializeUser(name: string, count: int, date: int, failingCall: Option<nat>) returns (errorLogged: bool)
      modifies this`lastDonationDate, this`userName, this`donationCount, storage
      ensures errorLogged <==> Throws(failingCall, 3)
      ensures !errorLogged ==> Profile() == DonationProfile(Some(StartOfDay(date)), Some(name), Int(count))
      ensures !errorLogged ==> storage.entries == old(storage.entries)[KEY_NAME := name]
                [KEY_COUNT := IntToString(count)][KEY_DATE := DateToStorage(StartOfDay(date))]
      ensures !errorLogged ==> Mirrored()
      ensures errorLogged ==> Profile() == old(Profile())
      ensures failingCall == Some(0) ==> storage.entries == old(storage.entries)
      ensures failingCall == Some(1) ==> storage.entries == old(storage.entries)[KEY_NAME := name]
      ensures failingCall == Some(2) ==> storage.entries == old(storage.entries)[KEY_NAME := name]
                [KEY_COUNT := IntToString(count)]
    {
      var newDate := StartOfDay(date);
      assert Throws(failingCall, 3) <==> failingCall == Some(0) || failingCall == Some(1) || failingCall == Some(2);
      errorLogged := true;
      var ok := storage.SetItem(KEY_NAME, name, failingCall == Some(0));
      if ok {
        ok := storage.SetItem(KEY_COUNT, NumberToString(Int(count)), failingCall == Some(1));
        if ok {
          ok := storage.SetItem(KEY_DATE, DateToStorage(newDate), failingCall == Some(2));
          if ok {
            userName := Some(name);
            donationCount := Int(count);
            lastDonationDate := Some(newDate);
            errorLogged := false;
            LoadAfterInitialize(old(storage.entries), name, count, newDate);
          }
        }
      }
    }

    /**
     * `recordDonationToday`: `clock` is the instant the call reads. Writes
     * today's midnight and the incremented count, then sets both; the name is
     * never touched.
     */
    method RecordDonationToday(clock: int, failingCall: Option<nat>) returns (errorLogged: bool)
      modifies this`lastDonationDate, this`donationCount, storage
      ensures errorLogged <==> Throws(failingCall, 2)
      ensures !errorLogged ==> lastDonationDate == Some(StartOfDay(clock))
      ensures !errorLogged ==> donationCount == old(donationCount).Add(1)
      ensures !errorLogged ==> storage.entries == old(storage.entries)
                [KEY_DATE := DateToStorage(StartOfDay(clock))][KEY_COUNT := NumberToString(old(donationCount).Add(1))]
      ensures !errorLogged && old(LoadProfile(storage.entries, {}).userName == userName) ==> Mirrored()
      ensures errorLogged ==> Profile() == old(Profile())
      ensures failingCall == Some(0) ==> storage.entries == old(storage.entries)
      ensures failingCall == Some(1) ==> storage.entries == old(storage.entries)[KEY_DATE := DateToStorage(StartOfDay(clock))]
    {
      var today := StartOfDay(clock);
      var newCount := donationCount.Add(1);
      assert Throws(failingCall, 2) <==> failingCall == Some(0) || failingCall == Some(1);
      errorLogged := true;
      var ok := storage.SetItem(KEY_DATE, DateToStorage(today), failingCall == Some(0));
      if ok {
        ok := storage.SetItem(KEY_COUNT, NumberToString(newCount), failingCall == Some(1));
        if ok {
          lastDonationDate := Some(today);
          donationCount := newCount;
          errorLogged := false;
          LoadAfterRecord(old(storage.entries), today, newCount);
        }
      }
    }

    /** `resetData`: removes the three keys, then clears the profile. */
    method ResetData(failingCall: Option<nat>) returns (errorLogged: bool)
      modifies this`lastDonationDate, this`userName, this`donationCount, storage
      ensures errorLogged <==> Throws(failingCall, 3)
      ensures !errorLogged ==> Profile() == EMPTY_PROFILE
      ensures !errorLogged ==> storage.entries == old(storage.entries) - {KEY_DATE, KEY_NAME, KEY_COUNT}
      ensures !errorLogged ==> Mirrored()
      ensures errorLogged ==> Profile() == old(Profile())
      ensures failingCall == Some(0) ==> storage.entries == old(storage.entries)
      ensures failingCall == Some(1) ==> storage.entries == old(storage.entries) - {KEY_DATE}
      ensures failingCall == Some(2) ==> storage.entries == old(storage.entries) - {KEY_DATE, KEY_NAME}
    {
      assert Throws(failingCall, 3) <==> failingCall == Some(0) || failingCall == Some(1) || failingCall == Some(2);
      errorLogged := true;
      var ok := storage.RemoveItem(KEY_DATE, failingCall == Some(0));
      if ok {
        ok := storage.RemoveItem(KEY_NAME, failingCall == Some(1));
        if ok {
          ok := storage.RemoveItem(KEY_COUNT, failingCall == Some(2));
          if ok {
            lastDonationDate := None;
            userName := None;
            donationCount := Int(0);
            errorLogged := false;
            assert storage.entries == old(storage.entries) - {KEY_DATE, KEY_NAME, KEY_COUNT};
            LoadWithoutKeys(storage.entries, {});
          }
        }
      }
    }
  }
}
