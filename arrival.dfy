/**
 * The arrival-time and cache-key arithmetic of `isochrone.py`:
 * `_calc_arrival_time` (the next date with the requested week day, and the
 * hour and minute read from an "HH:MM" string), `_construct_filename` and
 * the "ArrivalTime" label of `generate_isochrones`. Dates are proleptic
 * Gregorian ordinals, as Python's `date.toordinal()` gives them.
 */
module Arrival {

  import opened Wrappers
  import opened LocationIO

  /** `date.max.toordinal()`: 31 December 9999. */
  const MaxOrdinal: int := 3652059

  /** `date.weekday()` of the date with this ordinal: ordinal 1 (1 January of year 1) is a Monday. */
  function WeekdayOf(ordinal: int): (w: nat)
    ensures w < 7
  {
    (ordinal + 6) % 7
  }

  /** The week day reached `e` days after week day `w`. */
  function Advance(w: int, e: int): int {
    (w + e) % 7
  }

  /**
   * `(1 - today.weekday() + weekday_int - 1) % 7`. Python's `%` floors, which
   * for the positive divisor 7 agrees with Dafny's Euclidean `%`. The result
   * is the number of days to the next date with the target week day: 0 when
   * today is that day, and no smaller offset reaches it.
   */
  function DayOffset(todayWeekday: int, target: int): (d: int)
    requires 0 <= todayWeekday < 7 && 0 <= target < 7
    ensures 0 <= d < 7
    ensures Advance(todayWeekday, d) == target
    ensures todayWeekday == target ==> d == 0
    ensures forall e :: 0 <= e < d ==> Advance(todayWeekday, e) != target
  {
    (1 - todayWeekday + target - 1) % 7
  }

  /** Python's `s[i:j]` for `0 <= i <= j`: the bounds are clamped to the string. */
  function PySlice(s: string, i: nat, j: nat): (r: string)
    requires i <= j
    ensures |r| <= j - i
    ensures j <= |s| ==> r == s[i..j]
  {
    var lo := if i < |s| then i else |s|;
    var hi := if j < |s| then j else |s|;
    s[lo..hi]
  }

  predicate IsDigit(c: char) {
    '0' <= c <= '9'
  }

  /** Digits and signs are not white space. */
  lemma SignOrDigitIsNotSpace(c: char)
    requires IsDigit(c) || c == '-' || c == '+'
    ensures !IsSpace(c)
  {
  }

  /** Python's `str.isspace`, which `int()` and `str.strip()` use: ASCII white space, the four separators and the Unicode spaces. */
  predicate IsSpace(c: char) {
    || c == ' ' || c == '\t' || c == '\n' || c == '\r' || c == '\U{000B}' || c == '\U{000C}'
    || '\U{001C}' <= c <= '\U{001F}'
    || c == '\U{0085}' || c == '\U{00A0}' || c == '\U{1680}'
    || '\U{2000}' <= c <= '\U{200A}'
    || c == '\U{2028}' || c == '\U{2029}' || c == '\U{202F}' || c == '\U{205F}' || c == '\U{3000}'
  }

  function DigitValue(c: char): (n: nat)
    requires IsDigit(c)
    ensures n < 10
  {
    c as int - '0' as int
  }

  predicate AllDigits(s: string) {
    forall i :: 0 <= i < |s| ==> IsDigit(s[i])
  }

  /** The value of a string of decimal digits. */
  function DigitsValue(s: string): (n: nat)
    requires AllDigits(s)
    decreases |s|
  {
    if s == [] then 0 else DigitsValue(s[..|s| - 1]) * 10 + DigitValue(s[|s| - 1])
  }

  /** `s` without its leading and trailing white space. */
  function Strip(s: string): (r: string)
    ensures |r| <= |s|
    ensures r != [] ==> !IsSpace(r[0]) && !IsSpace(r[|r| - 1])
    ensures s != [] && !IsSpace(s[0]) && !IsSpace(s[|s| - 1]) ==> r == s
    decreases |s|
  {
    if s == [] then []
    else if IsSpace(s[0]) then Strip(s[1..])
    else if IsSpace(s[|s| - 1]) then Strip(s[..|s| - 1])
    else s
  }

  /**
   * `int(s)` on a string: optional white space around an optional sign and
   * at least one decimal digit; anything else is a `ValueError` (`None`).
   */
  function ParseInt(s: string): Option<int> {
    var t := Strip(s);
    if t == [] then None
    else
      var sign := if t[0] == '-' then -1 else 1;
      var digits := if t[0] == '-' || t[0] == '+' then t[1..] else t;
      if digits != [] && AllDigits(digits) then Some(sign * DigitsValue(digits))
      else None
  }

  /** Two ASCII digits parse to their value. */
  lemma ParseTwoDigits(s: string)
    requires |s| == 2 && IsDigit(s[0]) && IsDigit(s[1])
    ensures ParseInt(s) == Some(10 * DigitValue(s[0]) + DigitValue(s[1]))
  {
    assert Strip(s) == s;
    assert s[..1][..0] == [] && s[..1][0] == s[0];
    assert DigitsValue(s[..1]) == DigitValue(s[0]);
    assert DigitsValue(s) == 10 * DigitValue(s[0]) + DigitValue(s[1]);
  }

  lemma ModShift(a: int, e: int)
    ensures Advance(a % 7, e) == (a + e) % 7
  {
    var q := a / 7;
    assert a == 7 * q + a % 7;
    assert a + e == 7 * q + (a % 7 + e);
  }

  /**
   * Adding `DayOffset` to a date reaches the target week day, and no earlier
   * date from `today` on has it.
   */
  lemma NextWeekday(today: int, target: int)
    requires 0 <= target < 7
    ensures WeekdayOf(today + DayOffset(WeekdayOf(today), target)) == target
    ensures forall d :: today <= d < today + DayOffset(WeekdayOf(today), target) ==> WeekdayOf(d) != target
  {
    var w := WeekdayOf(today);
    var off := DayOffset(w, target);
    forall d | today <= d <= today + off
      ensures WeekdayOf(d) == Advance(w, d - today)
    {
      ModShift(today + 6, d - today);
    }
  }

  /** A date and a wall-clock time: the arrival `datetime` (its time zone is not modelled). */
  datatype ArrivalTime = ArrivalTime(date: int, hour: int, minute: int) {
    /** What `datetime(...)` accepts: a date up to `date.max`, an hour and a minute in range. */
    predicate Valid() {
      1 <= date <= MaxOrdinal && 0 <= hour < 24 && 0 <= minute < 60
    }

    function Weekday(): WeekDay
      requires Valid()
    {
      DayOfIndex(WeekdayOf(date))
    }
  }

  /**
   * `today + timedelta(days=(1 - today.weekday() + weekday_int - 1) % 7)`:
   * the first date from `today` on that falls on `weekday`.
   */
  function NextDate(today: int, weekday: WeekDay): (d: int)
    ensures today <= d < today + 7
    ensures DayOfIndex(WeekdayOf(d)) == weekday
    ensures WeekdayOf(today) == weekday.Index() ==> d == today
    ensures forall e :: today <= e < d ==> WeekdayOf(e) != weekday.Index()
  {
    NextWeekday(today, weekday.Index());
    WeekDayIndexRoundTrip(weekday);
    today + DayOffset(WeekdayOf(today), weekday.Index())
  }

  /** The exceptions of `_calc_arrival_time`: `ValueError` from `int()` or `datetime`, `OverflowError` past `date.max`. */
  datatype TimeError = InvalidTime | DateOverflow

  /**
   * `_calc_arrival_time(weekday, "HH:MM")` on the day with ordinal `today`:
   * the next date with that week day (today included), at the hour in
   * characters 0-1 and the minute in characters 3-4.
   */
  function CalcArrival(today: int, weekday: WeekDay, arrivalTime: string): (r: Result<ArrivalTime, TimeError>)
    requires 1 <= today <= MaxOrdinal
    ensures r.Ok? ==> r.value.Valid()
    ensures r.Ok? ==> today <= r.value.date < today + 7 && r.value.Weekday() == weekday
    ensures r.Ok? && WeekdayOf(today) == weekday.Index() ==> r.value.date == today
    ensures r.Ok? ==> forall d :: today <= d < r.value.date ==> WeekdayOf(d) != weekday.Index()
  {
    ArrivalFrom(today, weekday, PySlice(arrivalTime, 0, 2), PySlice(arrivalTime, 3, 5))
  }

  /** The arrival on the next `weekday`, given the hour and minute texts. */
  function ArrivalFrom(today: int, weekday: WeekDay, hourText: string, minuteText: string): Result<ArrivalTime, TimeError> {
    var next := NextDate(today, weekday);
    var hour := ParseInt(hourText);
    var minute := ParseInt(minuteText);
    if next > MaxOrdinal then Err(DateOverflow)
    else if hour.None? || minute.None? then Err(InvalidTime)
    else if !(0 <= hour.value < 24) || !(0 <= minute.value < 60) then Err(InvalidTime)
    else
      Ok(ArrivalTime(next, hour.value, minute.value))
  }

  /** `arrival_time[0:2]` and `arrival_time[3:5]` are the only characters read: the separator at index 2 is never examined. */
  lemma SeparatorIgnored(today: int, weekday: WeekDay, arrivalTime: string, c: char)
    requires 1 <= today <= MaxOrdinal && |arrivalTime| > 2
    ensures CalcArrival(today, weekday, arrivalTime) == CalcArrival(today, weekday, arrivalTime[2 := c])
  {
    var t := arrivalTime[2 := c];
    assert PySlice(t, 0, 2) == PySlice(arrivalTime, 0, 2);
    assert PySlice(t, 3, 5) == PySlice(arrivalTime, 3, 5);
  }

  /**
   * On an "HH:MM" string of digits the arrival is the next matching date at
   * hour HH and minute MM, exactly when the date stays within `date.max` and
   * HH, MM are in range; otherwise the call raises.
   */
  lemma ClockStringRead(today: int, weekday: WeekDay, arrivalTime: string)
    requires 1 <= today <= MaxOrdinal && |arrivalTime| == 5
    requires IsDigit(arrivalTime[0]) && IsDigit(arrivalTime[1]) && IsDigit(arrivalTime[3]) && IsDigit(arrivalTime[4])
    ensures var hh := 10 * DigitValue(arrivalTime[0]) + DigitValue(arrivalTime[1]);
            var mm := 10 * DigitValue(arrivalTime[3]) + DigitValue(arrivalTime[4]);
            var r := CalcArrival(today, weekday, arrivalTime);
            (r.Ok? <==> NextDate(today, weekday) <= MaxOrdinal && hh < 24 && mm < 60) &&
            (r.Ok? ==> r.value == ArrivalTime(NextDate(today, weekday), hh, mm))
  {
    ParseTwoDigits(arrivalTime[0..2]);
    ParseTwoDigits(arrivalTime[3..5]);
  }

  /** A one-digit hour such as "9:30" makes `int("9:")` raise. */
  lemma OneDigitHourRejected(today: int, weekday: WeekDay)
    requires 1 <= today <= MaxOrdinal
    ensures CalcArrival(today, weekday, "9:30").Err?
  {
    var h := PySlice("9:30", 0, 2);
    assert h == "9:";
    assert Strip(h) == h;
    assert !IsDigit(h[1]);
    assert ParseInt(h) == None;
    assert CalcArrival(today, weekday, "9:30") == ArrivalFrom(today, weekday, h, PySlice("9:30", 3, 5));
  }

  function DigitChar(n: nat): (c: char)
    requires n < 10
    ensures IsDigit(c) && DigitValue(c) == n
  {
    ('0' as int + n) as char
  }

  /** `str(n)` for a non-negative integer: its decimal digits, which parse back to `n`. */
  function NatToString(n: nat): (s: string)
    ensures s != [] && AllDigits(s)
    ensures DigitsValue(s) == n
    decreases n
  {
    if n < 10 then
      assert [DigitChar(n)][..0] == [];
      [DigitChar(n)]
    else
      var s := NatToString(n / 10) + [DigitChar(n % 10)];
      assert s[..|s| - 1] == NatToString(n / 10);
      s
  }

  /** `str(i)` for an integer: a minus sign before the digits of a negative number. */
  function IntToString(i: int): (s: string)
    ensures ParseInt(s) == Some(i)
    ensures '_' !in s
  {
    var digits := NatToString(if i < 0 then -i else i);
    var s := if i < 0 then "-" + digits else digits;
    SignOrDigitIsNotSpace(s[0]);
    SignOrDigitIsNotSpace(s[|s| - 1]);
    assert i < 0 ==> s[1..] == digits;
    s
  }

  /** `str` is injective on integers, because `int` parses its output back. */
  lemma IntToStringInjective(i: int, j: int)
    requires IntToString(i) == IntToString(j)
    ensures i == j
  {
    assert Some(i) == ParseInt(IntToString(i)) == ParseInt(IntToString(j)) == Some(j);
  }

  /** `"%02d" % n` for `0 <= n < 100`. */
  function Pad2(n: nat): (s: string)
    requires n < 100
    ensures |s| == 2 && IsDigit(s[0]) && IsDigit(s[1])
    ensures 10 * DigitValue(s[0]) + DigitValue(s[1]) == n
  {
    [DigitChar(n / 10), DigitChar(n % 10)]
  }

  /** `sep.join(parts)`. */
  function Join(sep: string, parts: seq<string>): string
    decreases |parts|
  {
    if parts == [] then ""
    else if |parts| == 1 then parts[0]
    else parts[0] + sep + Join(sep, parts[1..])
  }

  const Separator: string := "_-_"

  /** `strftime("%H%M")`. */
  function HourMinute(a: ArrivalTime): (s: string)
    requires a.Valid()
    ensures |s| == 4 && '_' !in s
  {
    Pad2(a.hour) + Pad2(a.minute)
  }

  /**
   * `_construct_filename`: the cache file of one location for one travel
   * type, travel time and arrival (its week day and "%H%M" time).
   */
  function CacheFilename(nameOrId: string, travel: TravelType, minutes: int, a: ArrivalTime): (f: string)
    requires a.Valid()
    ensures |f| > 5 && f[|f| - 5..] == ".json"
  {
    Join(Separator, [nameOrId, travel.Name(), IntToString(minutes), a.Weekday().Name(), HourMinute(a)]) + ".json"
  }

  /** The arrival date enters the filename only through its week day: the same arrival a week later reuses the file. */
  lemma FilenameKeysOnWeekday(nameOrId: string, travel: TravelType, minutes: int, a: ArrivalTime)
    requires a.Valid() && a.date + 7 <= MaxOrdinal
    ensures CacheFilename(nameOrId, travel, minutes, a) == CacheFilename(nameOrId, travel, minutes, a.(date := a.date + 7))
  {
    var b := a.(date := a.date + 7);
    assert WeekdayOf(b.date) == WeekdayOf(a.date);
    assert b.Weekday() == a.Weekday();
    assert HourMinute(b) == HourMinute(a);
  }

  /** The characters of `s` before its first `'_'`. */
  function BeforeUnderscore(s: string): (r: string)
    ensures |r| <= |s| && r == s[..|r|]
  {
    if s == [] || s[0] == '_' then [] else [s[0]] + BeforeUnderscore(s[1..])
  }

  lemma {:induction false} BeforeUnderscoreOfJoin(a: string, x: string)
    requires '_' !in a
    ensures BeforeUnderscore(a + Separator + x) == a
    decreases |a|
  {
    if a != [] {
      assert (a + Separator + x)[1..] == a[1..] + Separator + x;
      BeforeUnderscoreOfJoin(a[1..], x);
    }
  }

  /** Two strings joined at the first `"_-_"`: parts free of `'_'` split back uniquely. */
  lemma SplitAtSeparator(a: string, x: string, b: string, y: string)
    requires '_' !in a && '_' !in b
    requires a + Separator + x == b + Separator + y
    ensures a == b && x == y
  {
    var s := a + Separator + x;
    BeforeUnderscoreOfJoin(a, x);
    BeforeUnderscoreOfJoin(b, y);
    assert x == s[|a| + 3..] == y;
  }

  /** A travel type is read off by its first letter. */
  lemma SplitAtTravelType(t: TravelType, x: string, u: TravelType, y: string)
    requires t.Name() + Separator + x == u.Name() + Separator + y
    ensures t == u && x == y
  {
    var s := t.Name() + Separator + x;
    assert s[0] == t.Name()[0] && s[0] == u.Name()[0];
    assert t == u;
    assert x == s[|t.Name()| + 3..] == y;
  }

  /**
   * For sanitised names (which contain no `'_'`) the cache filename
   * determines every input it is built from: name, travel type, travel
   * minutes, week day, hour and minute. Different requests never share a file.
   */
  lemma {:induction false} CacheFilenameInjective(n1: string, t1: TravelType, m1: int, a1: ArrivalTime,
                                                  n2: string, t2: TravelType, m2: int, a2: ArrivalTime)
    requires '_' !in n1 && '_' !in n2 && a1.Valid() && a2.Valid()
    requires CacheFilename(n1, t1, m1, a1) == CacheFilename(n2, t2, m2, a2)
    ensures n1 == n2 && t1 == t2 && m1 == m2
    ensures a1.Weekday() == a2.Weekday() && a1.hour == a2.hour && a1.minute == a2.minute
  {
    var d1, d2 := a1.Weekday().Name(), a2.Weekday().Name();
    var h1, h2 := HourMinute(a1), HourMinute(a2);
    var s1, s2 := IntToString(m1), IntToString(m2);
    var j1 := Join(Separator, [n1, t1.Name(), s1, d1, h1]);
    var j2 := Join(Separator, [n2, t2.Name(), s2, d2, h2]);
    assert j1 == CacheFilename(n1, t1, m1, a1)[..|j1|];
    assert |j1| == |j2|;
    assert j1 == j2;
    FilenameFieldsInjective(n1, t1, s1, d1, h1, n2, t2, s2, d2, h2);
    IntToStringInjective(m1, m2);
    WeekDayNameInjective(a1.Weekday(), a2.Weekday());
    HourMinuteInjective(a1, a2);
  }

  /** The five `_-_`-joined fields of a filename are recovered from it when the name, minutes and day have no `_`. */
  lemma FilenameFieldsInjective(n1: string, t1: TravelType, s1: string, d1: string, h1: string,
                                n2: string, t2: TravelType, s2: string, d2: string, h2: string)
    requires '_' !in n1 && '_' !in n2 && '_' !in s1 && '_' !in s2 && '_' !in d1 && '_' !in d2
    requires Join(Separator, [n1, t1.Name(), s1, d1, h1]) == Join(Separator, [n2, t2.Name(), s2, d2, h2])
    ensures n1 == n2 && t1 == t2 && s1 == s2 && d1 == d2 && h1 == h2
  {
    assert [n1, t1.Name(), s1, d1, h1][1..] == [t1.Name(), s1, d1, h1];
    assert [n2, t2.Name(), s2, d2, h2][1..] == [t2.Name(), s2, d2, h2];
    assert [t1.Name(), s1, d1, h1][1..] == [s1, d1, h1];
    assert [t2.Name(), s2, d2, h2][1..] == [s2, d2, h2];
    assert [s1, d1, h1][1..] == [d1, h1];
    assert [s2, d2, h2][1..] == [d2, h2];
    assert [d1, h1][1..] == [h1];
    assert [d2, h2][1..] == [h2];
    assert Join(Separator, [h1]) == h1 && Join(Separator, [h2]) == h2;
    SplitAtSeparator(n1, Join(Separator, [t1.Name(), s1, d1, h1]), n2, Join(Separator, [t2.Name(), s2, d2, h2]));
    SplitAtTravelType(t1, Join(Separator, [s1, d1, h1]), t2, Join(Separator, [s2, d2, h2]));
    SplitAtSeparator(s1, Join(Separator, [d1, h1]), s2, Join(Separator, [d2, h2]));
    SplitAtSeparator(d1, h1, d2, h2);
  }

  /** `%H%M` determines the hour and the minute. */
  lemma HourMinuteInjective(a1: ArrivalTime, a2: ArrivalTime)
    requires a1.Valid() && a2.Valid() && HourMinute(a1) == HourMinute(a2)
    ensures a1.hour == a2.hour && a1.minute == a2.minute
  {
    var h1, h2 := HourMinute(a1), HourMinute(a2);
    var p1, p2, q1, q2 := Pad2(a1.hour), Pad2(a2.hour), Pad2(a1.minute), Pad2(a2.minute);
    assert h1[0] == p1[0] && h1[1] == p1[1] && h1[2] == q1[0] && h1[3] == q1[1];
    assert h2[0] == p2[0] && h2[1] == p2[1] && h2[2] == q2[0] && h2[3] == q2[1];
  }

  /** `strftime("%-I")`: the hour on a 12-hour clock, 12 for noon and midnight. */
  function Hour12(hour: int): (h: int)
    requires 0 <= hour < 24
    ensures 1 <= h <= 12
    ensures h % 12 == hour % 12
  {
    if hour % 12 == 0 then 12 else hour % 12
  }

  /**
   * The "ArrivalTime" column: `f"{weekday} at {time}"` with time formatted
   * as "%-I:%M %p" (C locale: "AM" before noon, "PM" from noon on).
   */
  function ArrivalLabel(a: ArrivalTime): (s: string)
    requires a.Valid()
    ensures var day := a.Weekday().Name();
            |s| > |day| + 4 && s[..|day| + 4] == day + " at "
    ensures s[|s| - 2..] == (if a.hour < 12 then "AM" else "PM")
  {
    a.Weekday().Name() + " at " + NatToString(Hour12(a.hour)) + ":" + Pad2(a.minute) + " " + (if a.hour < 12 then "AM" else "PM")
  }
}
