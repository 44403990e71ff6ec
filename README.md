# Blood-donation cycle tracker, modelled in Dafny

This project models the core of Blood-Buddy, a single-user reminder for blood
donors. The `useDonationTracker` hook keeps a small profile: the date of the
last donation, the user's name and the number of donations. It mirrors the
profile into three local-storage keys and derives everything else from the
last date and a "now" instant:

- the next eligible date, 56 days after the last one;
- the signed time left until that date;
- an eligibility flag;
- a days/hours/minutes/seconds countdown.

Three operations change the profile: `initializeUser`, `recordDonationToday`
and `resetData`. Each one writes to storage and then updates the in-memory
state, all inside one `try`. The model also covers the display logic in
`ui.tsx` that consumes these values: the reminder tiers, the zero-padded
countdown cells and the four-cell countdown display.

Files and modules:

- `wrappers.dfy` (`Wrappers`): `Option`, standing for a value or `null`/`undefined`.
- `js_numbers.dfy` (`JsNumbers`): the JavaScript conversions the tracker uses.
  These are `toString` on integral numbers, `parseInt(s, 10)` and `padStart`,
  plus the count type `Number = Int(int) | NaN`.
- `time.dfy` (`Time`): millisecond instants, local midnight and division facts.
- `cycle.dfy` (`Cycle`): the derived values, written as functions of the last date and `now`.
- `profile_store.dfy` (`ProfileStore`): the storage keys, the `LocalStorage`
  class and the start-up loading rules.
- `tracker.dfy` (`Tracker`): the `DonationTracker` class. It has the three
  profile fields, `now` and a reference to storage. Its methods are the clock
  tick and the three operations. Its accessor functions (`NextDonationDate`,
  `TimeDifference`, `IsEligible`, `TimeRemaining`, `DaysUntilNext`) apply
  `Cycle` to the current fields.
- `ui.dfy` (`Ui`): `ReminderMessage`, `CountdownItem`'s text and `CountdownDisplay`.
- `scenarios.dfy` (`Scenarios`): client methods. They show what a caller can
  conclude from the contracts alone, for example: initialise, then tick to
  12 hours before eligibility; record twice on one day; reset twice; a write
  that throws halfway.

Modelling choices:

- Time is integer milliseconds of local wall-clock time. Every day is exactly
  86,400,000 ms, so daylight-saving time does not exist here. `setHours(0, 0, 0, 0)`
  becomes `StartOfDay(t) = t - t % 86,400,000`. `setDate(getDate() + 56)`
  becomes the addition of 56 such days.
- Storage failures are explicit parameters. The constructor takes the set of
  keys whose `getItem` throws. Each operation takes `failingCall`: the
  position, within that operation's `try`, of the storage call that throws.
  The operation returns whether the error was logged (`console.error`).
- `recordDonationToday` reads a fresh `new Date()`. The model passes that
  instant in as `clock`, separate from the `now` that the timer updates.
- The stored date text is a decimal millisecond count (`DateToStorage` /
  `DateFromStorage`). It stands in for `toISOString()` and `new Date(string)`,
  which also round-trip every valid date exactly.

`Time.MulAtLeast`, `Time.DivModUnique` and `JsNumbers.DigitsValueLeadingZero` are arithmetic helper lemmas for the proofs above and model no source lines.

Where the system's written design and its code disagree, the model follows
the code:

- **Countdown at the exact end of the cycle.** The design expects no
  countdown at exactly 56 days. The code's `timeDifference < 0` test keeps
  the countdown at 0/0/0/0 at that instant, while `isEligible` is already
  true (`Cycle.CycleStates`, `Scenarios.AtCycleEnd`, `Scenarios.JustAfterCycleEnd`).
- **Storage writes that throw.** The design says the in-memory state is still
  applied when a write fails. In the code, a throw skips every later `set*`
  call in the `try`. Memory stays as it was, and the writes made before the
  throw stay in storage.

## Model

| member | source | states |
|---|---|---|
| JsNumbers.Number.Add | useDonationTracker.ts:91 | `donationCount + 1`: NaN stays NaN, and an integer count grows by exactly one |
| JsNumbers.NatToString | useDonationTracker.ts:77 | the decimal spelling of a count is non-empty, all digits, has no leading zero, and its digit value is the number |
| JsNumbers.IntToString | useDonationTracker.ts:94 | `toString` of an integer starts with a digit or '-', and is all digits exactly when the number is non-negative |
| JsNumbers.NumberToString | useDonationTracker.ts:77 | the stored spelling of a count is never empty, so the loader's truthiness test always passes it to `parseInt` |
| JsNumbers.TrimStart | useDonationTracker.ts:33 | `parseInt` skips exactly the leading white space: what remains is a suffix that does not start with white space |
| JsNumbers.DigitPrefix | useDonationTracker.ts:33 | `parseInt` reads the longest run of decimal digits: a prefix of digits followed by a non-digit or the end |
| JsNumbers.PadStart | ui.tsx:81 | `padStart` gives width max(len, 2), keeps the original as a suffix and fills only the front with the filler |
| JsNumbers.ParseInt | useDonationTracker.ts:33 | `parseInt(s, 10)` is NaN exactly when no digit follows the leading white space and one optional sign; a negative result needs a '-' there, and without one the result is never negative |
| JsNumbers.ParseIntOfDigits | useDonationTracker.ts:33 | `parseInt` of a non-empty digit string is its value |
| JsNumbers.ParseIntOfToString | useDonationTracker.ts:33 | `parseInt(n.toString(), 10) == n` for every integer, negative ones included |
| JsNumbers.ParseNumberToString | useDonationTracker.ts:94 | every count the tracker holds, NaN included, reads back as itself after `toString` |
| Time.StartOfDay | useDonationTracker.ts:72-73 | normalisation gives the midnight that starts the instant's own day |
| Time.StartOfDayIdempotent | useDonationTracker.ts:72-73 | normalising an already normalised date changes nothing |
| Time.StartOfDayUnique | useDonationTracker.ts:89-90 | any two instants of the same day normalise to the same midnight, so recording twice in one day keeps one date |
| Time.AddDaysKeepsTimeOfDay | useDonationTracker.ts:49-50 | adding whole days keeps the time of day, so a midnight plus 56 days is a midnight |
| Cycle.NextDonationDate | useDonationTracker.ts:47-52 | the next date is absent exactly when the last date is; otherwise it is exactly 56 days later, still at midnight |
| Cycle.TimeDifference | useDonationTracker.ts:54-57 | the difference is absent exactly when the next date is; otherwise now plus the difference is the next date |
| Cycle.IsEligible | useDonationTracker.ts:59 | eligibility needs a known difference; with one, the user is eligible or counting down, and both only when the difference is exactly 0 |
| Cycle.Breakdown | useDonationTracker.ts:63-67 | the days/hours/minutes/seconds conversion keeps each unit in range and reconstructs the total seconds exactly |
| Cycle.TimeRemaining | useDonationTracker.ts:61-69 | the countdown is absent exactly when the difference is absent or negative; otherwise its units are in range, it equals floor(diff/1000) seconds, and the reconstructed ms lie in [diff-999, diff] |
| Cycle.DaysUntilNext | useDonationTracker.ts:119 | `timeRemaining?.days` is present exactly with the countdown; for an in-range countdown it is non-negative and the whole days within its total seconds |
| Cycle.DaysUntilNextIsWholeDays | useDonationTracker.ts:119 | `daysUntilNext` is the countdown's day part, which is the whole days left: floor(diff / 86,400,000) |
| Cycle.CycleStates | useDonationTracker.ts:59 | no last date means neither eligible nor counting down; eligible exactly from 56 days on; counting down exactly until then; both at that instant, with a 0/0/0/0 countdown |
| Cycle.CountdownNeverGrows | useDonationTracker.ts:54-69 | for one last date, a later `now` never shows more seconds left |
| ProfileStore.KeysDistinct | useDonationTracker.ts:5-7 | the three storage keys are distinct |
| ProfileStore.DateToStorage | useDonationTracker.ts:78 | the stored text of a date is non-empty, starts with '-' exactly for dates before the epoch, and is all digits otherwise |
| ProfileStore.DateFromStorage | useDonationTracker.ts:14 | a decoded date comes from non-empty text, a negative one from text starting with '-'; a digit string decodes to its value, and other text without a leading '-' decodes to nothing |
| ProfileStore.DateRoundTrip | useDonationTracker.ts:78 | a stored date is non-empty and reads back as the same instant |
| ProfileStore.ReadItem | useDonationTracker.ts:13 | `getItem` throws exactly for an unreadable key; otherwise it gives the stored string, or null when the key is missing |
| ProfileStore.LoadDate | useDonationTracker.ts:11-19 | a failed read, a missing item or an empty string gives no date; a date that is present is the decoding of the stored text |
| ProfileStore.LoadName | useDonationTracker.ts:21-28 | a name is present exactly when the read succeeds and the item exists, and it is the stored string unchanged |
| ProfileStore.LoadCount | useDonationTracker.ts:30-38 | a failed read or a missing or empty item gives 0; any other item gives `parseInt(item, 10)` |
| ProfileStore.LoadProfile | useDonationTracker.ts:11-38 | each field comes from its own key alone: no date when the date read fails or the item is missing or empty, else its decoding; the name exactly when its read succeeds and the key exists; count 0 when its read fails or the item is missing or empty, else `parseInt(item, 10)` |
| ProfileStore.LoadStoredCount | useDonationTracker.ts:30-38 | a count written with `toString` loads back as the same count |
| ProfileStore.LoadWithoutKeys | useDonationTracker.ts:11-38 | with the three keys absent, start-up gives the empty profile whatever reads fail |
| ProfileStore.LoadAfterInitialize | useDonationTracker.ts:75-78 | after initialisation's three writes, start-up reads back exactly the date, name and count written |
| ProfileStore.LoadAfterRecord | useDonationTracker.ts:92-94 | after a recorded donation's two writes, start-up reads back the new date and count and the name already stored |
| ProfileStore.LocalStorage.GetItem | useDonationTracker.ts:13 | a read returns the item, null, or a throw, and changes nothing |
| ProfileStore.LocalStorage.SetItem | useDonationTracker.ts:76 | a write that does not throw updates that one key; a throwing write changes nothing |
| ProfileStore.LocalStorage.RemoveItem | useDonationTracker.ts:104 | a removal that does not throw deletes that one key; a throwing removal changes nothing |
| Tracker.DonationTracker.constructor | useDonationTracker.ts:11-40 | start-up loads each field with the rules above and sets `now` to the clock |
| Tracker.DonationTracker.Mirrored | useDonationTracker.ts:75-84 | when storage mirrors memory, the name key exists exactly when there is a name and holds it, a present date is stored and decodes to it, and a non-empty stored count parses to the count |
| Tracker.DonationTracker.NextDonationDate | useDonationTracker.ts:47-52 | present exactly with a last date, and then the cycle's length after it |
| Tracker.DonationTracker.TimeDifference | useDonationTracker.ts:54-57 | present exactly with a last date, and then the last date plus the cycle minus `now` |
| Tracker.DonationTracker.IsEligible | useDonationTracker.ts:59 | eligible exactly when a last date exists and the cycle has elapsed since it by `now` |
| Tracker.DonationTracker.TimeRemaining | useDonationTracker.ts:61-69 | a countdown exactly while a last date exists and the cycle has not yet passed `now`; every unit is in range, it denotes floor((last + cycle - now) / 1000) seconds, and those seconds in ms lie within 999 ms below the time left |
| Tracker.DonationTracker.DaysUntilNext | useDonationTracker.ts:119 | present exactly while counting down, and then the whole days of the time left |
| Tracker.DonationTracker.Tick | useDonationTracker.ts:42-45 | a tick sets `now` to the given instant, which need not be later, and changes nothing else |
| Tracker.DonationTracker.InitializeUser | useDonationTracker.ts:71-85 | if every write succeeds: the profile becomes (midnight of the date, name, count), storage gets the three writes, and storage mirrors memory. If a write throws: the error is logged, memory is unchanged and exactly the earlier writes are kept. `now` never changes |
| Tracker.DonationTracker.RecordDonationToday | useDonationTracker.ts:88-100 | if both writes succeed: the date becomes today's midnight, whatever it was, and the count becomes count + 1 (NaN stays NaN); storage mirrors memory whenever the stored name already did. The name and `now` never change. If a write throws, memory is unchanged |
| Tracker.DonationTracker.ResetData | useDonationTracker.ts:102-113 | if every removal succeeds: the three keys are gone, the profile is empty (no date, no name, count 0) and storage mirrors it. If a removal throws, memory is unchanged and exactly the earlier removals are kept |
| Ui.Tier.Message | ui.tsx:104-106 | each tier's message is a non-empty string |
| Ui.TierFor | ui.tsx:104-106 | the tiers are tested in ascending order: day-before exactly for values up to 1, two-days exactly for 2, three-days exactly for 3, none above 3 |
| Ui.ReminderMessage | ui.tsx:99-106 | no reminder exactly when the value is absent, above 3 or negative; otherwise the message of the tier that fires, never empty |
| Ui.CountdownItemText | ui.tsx:81 | a cell shows the value's decimal spelling unchanged when it has two or more characters, and behind one '0' when it has one |
| Ui.CountdownItemTextShape | ui.tsx:81 | a non-negative value shows at least two characters: '0' and its digit for 0..9, its own digits from 10 on, exactly two below 100 |
| Ui.CountdownItemTextReadsBack | ui.tsx:81 | the padded text of a non-negative value is all digits and reads back as the value |
| Ui.CountdownDisplay | ui.tsx:86-96 | no items without a countdown; otherwise exactly four, for days, hours, minutes and seconds in that order, each showing its own unit's padded value |
| Ui.ItemReadsBack | ui.tsx:90-93 | each cell of a displayed countdown reads back as its unit's value; the hours, minutes and seconds cells are exactly two characters |
| Ui.ReminderWindow | ui.tsx:100-102 | fed by the tracker, a reminder shows exactly while the next date is between 0 ms and 4 whole days ahead |

## Left out

- React machinery (`useState`, `useMemo`, `useCallback`, `useEffect`). State is class fields, and the derivations are functions of those fields, recomputed on demand.
- The `setInterval`/`clearInterval` timer and its one-second period: this is scheduling. Only its effect is modelled, as `Tick`, and later ticks need not carry later instants.
- Time zones and daylight-saving time: the model assumes fixed 24-hour local days. The real `setDate`/`setHours` can move around a DST switch.
- The ISO-8601 text of stored dates: a decimal millisecond string stands in for it.
- Invalid stored dates: a stored date that does not decode loads as absent. In the source, `new Date` of such a string gives an Invalid Date: `nextDonationDate` is then an Invalid Date too, `timeDifference` and the countdown units are NaN, `isEligible` is false, and the display shows four "NaN" cells. That NaN countdown is the only way `ReminderMessage` could show an empty message.
- Floating point: counts and instants are unbounded exact integers. The precision limit past 2^53 is not modelled. Neither are `toString`'s exponent form from 10^21 on and `parseInt`'s negative zero. A JavaScript `Date` also holds only instants within ±8.64e15 ms of the epoch: past that, `new Date(date)` or `setDate` gives an Invalid Date, while the model's unbounded instants never do.
- `initializeUser` with a non-integer count: arguments are integers here.
- Tracker.DonationTracker.InitializeUser: its `date` is an integer instant, so an Invalid Date argument cannot be passed. In the source, `toISOString()` then throws a RangeError after the name and count writes. The model reaches that outcome only through `failingCall == Some(2)`.
- `ReminderMessage` with a NaN or fractional value: its argument is an integer or absent.
- `console.error` logging: in the three operations it becomes their `errorLogged` result, and the message text is dropped. The start-up loaders' logging on a failed read (the three initialisers) is dropped entirely: the constructor only falls back to the default value.
- The exceptions themselves: a throwing storage call is modelled as a failed call with no effect, and the cause (quota, security) is not represented.
- JSX markup, styling, the `Card` layout, the SVG icons, `DonationCounterIcon` and `Confetti` (which depends on `Math.random`): presentation only.
