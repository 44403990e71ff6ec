/**
 * The logic of the display components: which reminder to show for the days
 * left, how a countdown value is spelled, and which items the countdown shows.
 */
module Ui {
  import opened Wrappers
  import opened JsNumbers
  import opened Time
  import opened Cycle

  /** The three reminder tiers and the message each shows. */
  datatype Tier = DayBefore | TwoDays | ThreeDays {
    function Message(): (m: string)
      ensures |m| > 0
    {
      match this
      case DayBefore => "Donation day is tomorrow! Prepare to be a hero."
      case TwoDays => "Only 2 days to go! Hydrate well."
      case ThreeDays => "Just 3 days left until you can donate again."
    }
  }

  /**
   * The tier chain of `ReminderMessage`: the bounds 1, 2 and 3 tested in
   * ascending order, so the tightest one that holds wins; above 3 no tier
   * fires and the message stays empty.
   */
  function TierFor(d: int): (tier: Option<Tier>)
    ensures tier.Some? <==> d <= 3
    ensures tier == Some(DayBefore) <==> d <= 1
    ensures tier == Some(TwoDays) <==> d == 2
    ensures tier == Some(ThreeDays) <==> d == 3
  {
    if d <= 1 then Some(DayBefore)
    else if d <= 2 then Some(TwoDays)
    else if d <= 3 then Some(ThreeDays)
    else None
  }

  /**
   * `ReminderMessage`: nothing for an absent value or one outside 0..3;
   * otherwise the message of the tier that fires, which is never empty.
   */
  function ReminderMessage(daysUntilNext: Option<int>): (shown: Option<string>)
    ensures shown.None? <==> daysUntilNext.None? || daysUntilNext.value > 3 || daysUntilNext.value < 0
    ensures shown.Some? ==> TierFor(daysUntilNext.value).Some?
    ensures shown.Some? ==> shown.value == TierFor(daysUntilNext.value).value.Message() && shown.value != ""
  {
    if daysUntilNext.None? || daysUntilNext.value > 3 || daysUntilNext.value < 0 then None
    else
      var message := match TierFor(daysUntilNext.value)
        case Some(tier) => tier.Message()
        case None => "";
      Some(message)
  }

  /** `CountdownItem`'s text: the value's decimal spelling padded on the left with '0' to two characters. */
  function CountdownItemText(value: int): (text: string)
    ensures |IntToString(value)| >= 2 ==> text == IntToString(value)
    ensures |IntToString(value)| < 2 ==> text == ['0'] + IntToString(value)
  {
    var spelling := IntToString(value);
    var padded := PadStart(spelling, 2, '0');
    assert |spelling| < 2 ==> padded == [padded[0]] + padded[1..];
    padded
  }

  /**
   * A non-negative value shows at least two characters: a single digit
   * behind a '0', or else its own digits unchanged.
   */
  lemma CountdownItemTextShape(value: int)
    requires value >= 0
    ensures var text := CountdownItemText(value);
            && |text| >= 2
            && (value <= 9 ==> text == ['0', DigitChar(value)])
            && (value >= 10 ==> text == IntToString(value))
            && (value < 100 ==> |text| == 2)
  {
    if value >= 10 {
      var d := NatToString(value);
      assert |d| >= 2;
    }
  }

  /** The padded text of a non-negative value is all digits and still reads back as that value. */
  lemma CountdownItemTextReadsBack(value: int)
    requires value >= 0
    ensures AllDigits(CountdownItemText(value))
    ensures ParseInt(CountdownItemText(value)) == Int(value)
  {
    var digits := IntToString(value);
    var text := CountdownItemText(value);
    CountdownItemTextShape(value);
    if value < 10 {
      assert text == "0" + digits;
      DigitsValueLeadingZero(digits);
    }
    ParseIntOfDigits(text);
  }

  /** The units of the countdown, with the caption each item shows under its value. */
  datatype TimeUnit = Days | Hours | Minutes | Seconds {
    function Caption(): string {
      match this
      case Days => "Days"
      case Hours => "Hours"
      case Minutes => "Mins"
      case Seconds => "Secs"
    }
  }

  /** The value a countdown holds for one unit. */
  function ValueOf(c: Countdown, u: TimeUnit): int {
    match u
    case Days => c.days
    case Hours => c.hours
    case Minutes => c.minutes
    case Seconds => c.seconds
  }

  /** The order of the items, largest unit first. */
  const DISPLAY_ORDER: seq<TimeUnit> := [Days, Hours, Minutes, Seconds]

  /** One cell of the countdown: the padded value and the unit it belongs to. */
  datatype CountdownItem = CountdownItem(text: string, unit: TimeUnit)

  /** The item for one unit of a countdown. */
  function ItemFor(c: Countdown, u: TimeUnit): CountdownItem {
    CountdownItem(CountdownItemText(ValueOf(c, u)), u)
  }

  /**
   * `CountdownDisplay`: nothing without a countdown; otherwise four items,
   * days, hours, minutes and seconds in that order, each showing the padded
   * value of its own unit.
   */
  function CountdownDisplay(remaining: Option<Countdown>): (items: Option<seq<CountdownItem>>)
    ensures items.None? <==> remaining.None?
    ensures items.Some? ==> |items.value| == 4
    ensures items.Some? ==> forall i :: 0 <= i < 4 ==> items.value[i] == ItemFor(remaining.value, DISPLAY_ORDER[i])
  {
    match remaining
    case None => None
    case Some(c) => Some(seq(4, i requires 0 <= i < 4 => ItemFor(c, DISPLAY_ORDER[i])))
  }

  /**
   * Every item of a displayed countdown reads back as the value of its unit,
   * and all but the days item are exactly two characters wide.
   */
  lemma ItemReadsBack(c: Countdown, u: TimeUnit)
    requires c.InRange()
    ensures ParseInt(ItemFor(c, u).text) == Int(ValueOf(c, u))
    ensures u != Days ==> |ItemFor(c, u).text| == 2
  {
    CountdownItemTextReadsBack(ValueOf(c, u));
    CountdownItemTextShape(ValueOf(c, u));
  }

  /**
   * Fed by the tracker, a reminder shows exactly while the next date is
   * between zero and four whole days away.
   */
  lemma ReminderWindow(last: Option<int>, now: int)
    ensures ReminderMessage(DaysUntilNext(TimeRemaining(TimeDifference(NextDonationDate(last), now)))).Some?
            <==> last.Some? && 0 <= last.value + CYCLE_MS - now < 4 * MS_PER_DAY
  {
    if last.Some? && last.value + CYCLE_MS - now >= 0 {
      DaysUntilNextIsWholeDays(last.value + CYCLE_MS - now);
    }
  }
}
