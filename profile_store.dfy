/**
 * The persisted profile: three string entries in the browser's local
 * storage, and the rules by which the tracker reads them back at start-up.
 */
module ProfileStore {
  import opened Wrappers
  import opened JsNumbers

  const KEY_DATE: string := "bloodDonation_lastDate"
  const KEY_NAME: string := "bloodDonation_userName"
  const KEY_COUNT: string := "bloodDonation_donationCount"

  /** The three keys are distinct, so writing one never disturbs another. */
  lemma KeysDistinct()
    ensures KEY_DATE != KEY_NAME && KEY_DATE != KEY_COUNT && KEY_NAME != KEY_COUNT
  {
    assert KEY_DATE[14] != KEY_NAME[14];
    assert |KEY_COUNT| != |KEY_DATE| && |KEY_COUNT| != |KEY_NAME|;
  }

  /** The outcome of one `localStorage.getItem`: the item or null, or an exception. */
  datatype Read = Got(item: Option<string>) | Threw

  /** Last donation date (local ms), user name and donation count. */
  datatype DonationProfile = DonationProfile(lastDonationDate: Option<int>, userName: Option<string>, donationCount: Number)

  /** The profile before any initialisation and after a reset. */
  const EMPTY_PROFILE: DonationProfile := DonationProfile(None, None, Int(0))

  /** The stored spelling of a date: its millisecond count in decimal. */
  function DateToStorage(t: int): (s: string)
    ensures s != [] && (s[0] == '-' <==> t < 0)
    ensures t >= 0 <==> AllDigits(s)
  {
    IntToString(t)
  }

  /** Reads a stored date: an optional minus sign and at least one digit, nothing else. */
  function DateFromStorage(s: string): (t: Option<int>)
    ensures t.Some? ==> s != []
    ensures t.Some? && t.value < 0 ==> s[0] == '-'
    ensures s != [] && AllDigits(s) ==> t == Some(DigitsValue(s))
    ensures s != [] && s[0] != '-' && !AllDigits(s) ==> t.None?
  {
    if s != [] && s[0] == '-' && s[1..] != [] && AllDigits(s[1..]) then Some(-(DigitsValue(s[1..]) as int))
    else if s != [] && AllDigits(s) then Some(DigitsValue(s))
    else None
  }

  /** Every date reads back as itself. */
  lemma DateRoundTrip(t: int)
    ensures DateToStorage(t) != [] && DateFromStorage(DateToStorage(t)) == Some(t)
  {
    var s := DateToStorage(t);
    if t < 0 {
      assert s[1..] == NatToString(-t);
    }
  }

  /** One `getItem(key)` against the entries, where the keys in `unreadable` throw. */
  function ReadItem(entries: map<string, string>, unreadable: set<string>, key: string): (r: Read)
    ensures r.Threw? <==> key in unreadable
    ensures r.Got? ==> (r.item.Some? <==> key in entries) && (r.item.Some? ==> r.item.value == entries[key])
  {
    if key in unreadable then Threw
    else if key in entries then Got(Some(entries[key]))
    else Got(None)
  }

  /** The date initialiser: a failed read, a missing item or an empty string give no date. */
  function LoadDate(r: Read): (d: Option<int>)
    ensures r.Threw? || r.item.None? || r.item.value == "" ==> d.None?
    ensures d.Some? ==> r.Got? && r.item.Some? && DateFromStorage(r.item.value) == d
    ensures r.Got? && r.item.Some? && r.item.value != "" ==> d == DateFromStorage(r.item.value)
  {
    match r
    case Threw => None
    case Got(None) => None
    case Got(Some(s)) => if s == "" then None else DateFromStorage(s)
  }

  /** The name initialiser: the stored string as it is, or none. */
  function LoadName(r: Read): (name: Option<string>)
    ensures name.Some? <==> r.Got? && r.item.Some?
    ensures name.Some? ==> name.value == r.item.value
  {
    match r
    case Threw => None
    case Got(item) => item
  }

  /** The count initialiser: 0 when the read fails or the item is missing or empty, else `parseInt(item, 10)`. */
  function LoadCount(r: Read): (n: Number)
    ensures r.Threw? || r.item.None? || r.item.value == "" ==> n == Int(0)
    ensures r.Got? && r.item.Some? && r.item.value != "" ==> n == ParseInt(r.item.value)
  {
    match r
    case Threw => Int(0)
    case Got(None) => Int(0)
    case Got(Some(s)) => if s == "" then Int(0) else ParseInt(s)
  }

  /** The profile the tracker starts from. */
  function LoadProfile(entries: map<string, string>, unreadable: set<string>): (p: DonationProfile)
    ensures KEY_DATE in unreadable || KEY_DATE !in entries || entries[KEY_DATE] == "" ==> p.lastDonationDate.None?
    ensures KEY_DATE !in unreadable && KEY_DATE in entries && entries[KEY_DATE] != "" ==>
              p.lastDonationDate == DateFromStorage(entries[KEY_DATE])
    ensures p.userName.Some? <==> KEY_NAME !in unreadable && KEY_NAME in entries
    ensures p.userName.Some? ==> p.userName.value == entries[KEY_NAME]
    ensures KEY_COUNT in unreadable || KEY_COUNT !in entries || entries[KEY_COUNT] == "" ==> p.donationCount == Int(0)
    ensures KEY_COUNT !in unreadable && KEY_COUNT in entries && entries[KEY_COUNT] != "" ==>
              p.donationCount == ParseInt(entries[KEY_COUNT])
  {
    DonationProfile(
      LoadDate(ReadItem(entries, unreadable, KEY_DATE)),
      LoadName(ReadItem(entries, unreadable, KEY_NAME)),
      LoadCount(ReadItem(entries, unreadable, KEY_COUNT)))
  }

  /** A count written with `toString()` is read back as the same count. */
  lemma LoadStoredCount(x: Number)
    ensures LoadCount(Got(Some(NumberToString(x)))) == x
  {
    ParseNumberToString(x);
  }

  /** With none of the three keys present, start-up yields the empty profile, whatever reads fail. */
  lemma LoadWithoutKeys(entries: map<string, string>, unreadable: set<string>)
    requires KEY_DATE !in entries && KEY_NAME !in entries && KEY_COUNT !in entries
    ensures LoadProfile(entries, unreadable) == EMPTY_PROFILE
  {
  }

  /** After the three writes of an initialisation, start-up reads back exactly what was written. */
  lemma LoadAfterInitialize(entries: map<string, string>, name: string, count: int, date: int)
    ensures LoadProfile(entries[KEY_NAME := name][KEY_COUNT := IntToString(count)][KEY_DATE := DateToStorage(date)], {})
            == DonationProfile(Some(date), Some(name), Int(count))
  {
    KeysDistinct();
    DateRoundTrip(date);
    LoadStoredCount(Int(count));
  }

  /** After the two writes of a recorded donation, start-up reads back the new date and count and the old name. */
  lemma LoadAfterRecord(entries: map<string, string>, date: int, count: Number)
    ensures var p := LoadProfile(entries[KEY_DATE := DateToStorage(date)][KEY_COUNT := NumberToString(count)], {});
            p == DonationProfile(Some(date), LoadProfile(entries, {}).userName, count)
  {
    KeysDistinct();
    DateRoundTrip(date);
    LoadStoredCount(count);
  }

  /**
   * The browser's local storage. Each operation takes whether it throws; a
   * throwing operation changes nothing.
   */
  class LocalStorage {
    var entries: map<string, string>

    constructor (entries: map<string, string>)
      ensures this.entries == entries
    {
      this.entries := entries;
    }

    method GetItem(key: string, throws: bool) returns (r: Read)
      ensures r == ReadItem(entries, if throws then {key} else {}, key)
    {
      if throws {
        r := Threw;
      } else if key in entries {
        r := Got(Some(entries[key]));
      } else {
        r := Got(None);
      }
    }

    method SetItem(key: string, value: string, throws: bool) returns (ok: bool)
      modifies this
      ensures ok == !throws
      ensures entries == if throws then old(entries) else old(entries)[key := value]
    {
      ok := !throws;
      if ok {
        entries := entries[key := value];
      }
    }

    method RemoveItem(key: string, throws: bool) returns (ok: bool)
      modifies this
      ensures ok == !throws
      ensures entries == if throws then old(entries) else old(entries) - {key}
    {
      ok := !throws;
      if ok {
        entries := entries - {key};
      }
    }
  }
}
