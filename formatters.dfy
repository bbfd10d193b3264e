/**
 * The two formatters with logic of their own: `formatTime`, which turns a 24-hour
 * `HH:MM` slot time into a 12-hour one, and `formatDateForInput`, which writes a
 * calendar date as `YYYY-MM-DD`.
 */
module Formatters {
  import opened Wrappers
  import opened JsString

  // ---------------------------------------------------------------------------
  // formatTime
  // ---------------------------------------------------------------------------

  /** JavaScript's `a % 12`: the remainder takes the sign of the dividend. */
  function JsRemainder12(a: int): (r: int)
    ensures (a - r) % 12 == 0
    ensures a >= 0 ==> 0 <= r < 12
    ensures a < 0 ==> -12 < r <= 0
  {
    if a >= 0 then a % 12 else -((-a) % 12)
  }

  /** `hour % 12 || 12`, with `None` for a `NaN` hour: `NaN % 12` is `NaN`, which is
      falsy, so a `NaN` hour is shown as 12, as is every multiple of 12. */
  function DisplayHour(hour: Option<int>): (d: int)
    ensures hour.None? ==> d == 12
    ensures hour.Some? ==> (hour.value - d) % 12 == 0
    ensures hour.Some? && hour.value >= 0 ==> 1 <= d <= 12
    ensures hour.Some? && hour.value < 0 ==> d == 12 || -12 < d < 0
  {
    match hour
    case None => 12
    case Some(h) => var r := JsRemainder12(h); if r == 0 then 12 else r
  }

  /** `hour >= 12 ? 'PM' : 'AM'`; a `NaN` hour compares false. */
  function Meridiem(hour: Option<int>): string {
    if hour.Some? && hour.value >= 12 then "PM" else "AM"
  }

  /** `formatTime`: the text before the first `:` read by `parseInt` as the hour, the
      text between the first and second `:` kept as the minutes (the word `undefined`
      when there is no `:`), and the hour shown on a 12-hour clock with its meridiem. */
  function FormatTime(time: string): string {
    var pieces := Split(time, ':');
    ShowTime(ParseInt(pieces[0]), if |pieces| >= 2 then pieces[1] else "undefined")
  }

  /** The template `${displayHour}:${minutes} ${ampm}`. */
  function ShowTime(hour: Option<int>, minutes: string): string {
    IntToString(DisplayHour(hour)) + ":" + (minutes + (" " + Meridiem(hour)))
  }

  /** The 12-hour clock face reading of a 24-hour hour, stated on its own. */
  function TwelveHourReading(h: nat): nat
    requires h < 24
  {
    if h == 0 then 12 else if h > 12 then h - 12 else h
  }

  /** Reads a 12-hour `H:MM AM` / `H:MM PM` time back to its 24-hour hour and minutes. */
  function ParseTwelveHour(s: string): Option<(int, string)> {
    var pieces := Split(s, ':');
    if |pieces| != 2 || |pieces[1]| < 3 then None
    else
      var rest := pieces[1];
      match ParseInt(pieces[0])
      case None => None
      case Some(h) => FromTwelveHour(h, rest[..|rest| - 3], rest[|rest| - 3..])
  }

  function FromTwelveHour(h: int, minutes: string, suffix: string): Option<(int, string)> {
    if !(1 <= h <= 12) then None
    else if suffix == " AM" then Some((if h == 12 then 0 else h, minutes))
    else if suffix == " PM" then Some((if h == 12 then 12 else h + 12, minutes))
    else None
  }

  /** The hour texts of a well-formed time: `parseInt` reads hour `h` from `hours`, which
      holds no `:`. `HourTexts` gives both spellings, `"9"` and `"09"`. */
  predicate IsHourText(hours: string, h: nat) {
    ':' !in hours && ParseInt(hours) == Some(h)
  }

  /** Hour `h` written as `String(h)` or padded to two digits, as in `"09:30"`, is an
      hour text of `h`. */
  lemma HourTexts(h: nat)
    requires h < 24
    ensures IsHourText(IntToString(h), h)
    ensures IsHourText(PadStart2(IntToString(h)), h)
  {
    NumeralHasNoColon(h);
    ParseIntOfString(h);
    var padded := PadStart2(IntToString(h));
    PadTwoDigits(h);
    DigitsLack(padded, ':');
    ParseIntOfDigits(padded);
  }

  /** A well-formed 24-hour time is shown at its clock-face hour, with `PM` exactly
      from noon on. */
  lemma FormatClockTime(hours: string, h: nat, m: string)
    requires h < 24 && IsHourText(hours, h) && ':' !in m
    ensures FormatTime(hours + ":" + m)
         == IntToString(TwelveHourReading(h)) + ":" + (m + (" " + if h >= 12 then "PM" else "AM"))
  {
    FormatTimeFields(hours, m);
    ClockHour(h);
  }

  /** `formatTime` of a two-digit `HH:MM` time, the form slot times come in. */
  lemma FormatTwoDigitTime(h: nat, m: string)
    requires h < 24 && ':' !in m
    ensures FormatTime(PadStart2(IntToString(h)) + ":" + m)
         == IntToString(TwelveHourReading(h)) + ":" + (m + (" " + if h >= 12 then "PM" else "AM"))
  {
    HourTexts(h);
    FormatClockTime(PadStart2(IntToString(h)), h, m);
  }

  /** `formatTime` of `hours:minutes` reads the hour from `hours` and shows `minutes`. */
  lemma FormatTimeFields(hours: string, minutes: string)
    requires ':' !in hours && ':' !in minutes
    ensures FormatTime(hours + ":" + minutes) == ShowTime(ParseInt(hours), minutes)
  {
    SplitOfTime(hours, minutes);
  }

  /** On hours 0 to 23, `hour % 12 || 12` is the clock-face reading. */
  lemma ClockHour(h: nat)
    requires h < 24
    ensures DisplayHour(Some(h)) == TwelveHourReading(h)
  {
    if h >= 12 {
      assert h % 12 == h - 12;
    } else {
      assert h % 12 == h;
    }
  }

  lemma SplitOfTime(a: string, m: string)
    requires ':' !in a && ':' !in m
    ensures Split(a + ":" + m, ':') == [a, m]
  {
    SplitAfterPiece(a, m, ':');
    SplitWithoutSeparator(m, ':');
  }

  /** String(n) of a natural number holds no `:`. */
  lemma NumeralHasNoColon(n: nat)
    ensures ':' !in IntToString(n)
  {
    DigitsLack(NatToString(n), ':');
  }

  /** Midnight (hour 0, as `"0"` or `"00"`) is shown as 12 AM and noon as 12 PM. */
  lemma MidnightAndNoon(hours: string, h: nat, m: string)
    requires (h == 0 || h == 12) && IsHourText(hours, h) && ':' !in m
    ensures FormatTime(hours + ":" + m) == IntToString(12) + ":" + (m + (" " + if h == 0 then "AM" else "PM"))
  {
    FormatClockTime(hours, h, m);
  }

  /** Formatting a well-formed 24-hour time loses nothing: the hour and the minutes
      can be read back from the 12-hour text. */
  lemma FormatTimeRoundTrip(hours: string, h: nat, m: string)
    requires h < 24 && IsHourText(hours, h) && ':' !in m
    ensures ParseTwelveHour(FormatTime(hours + ":" + m)) == Some((h, m))
  {
    var d := TwelveHourReading(h);
    var suffix := if h >= 12 then " PM" else " AM";
    FormatClockTime(hours, h, m);
    MeridiemSuffix(h >= 12);
    ReadShownTime(d, m, suffix);
    BackToTwentyFour(h, m);
  }

  /** The text after the minutes: a space and the meridiem. */
  lemma MeridiemSuffix(pm: bool)
    ensures var suffix := " " + (if pm then "PM" else "AM");
      && suffix == (if pm then " PM" else " AM") && |suffix| == 3 && ':' !in suffix
  {
  }

  /** The clock-face reading and the meridiem determine the 24-hour hour. */
  lemma BackToTwentyFour(h: nat, m: string)
    requires h < 24
    ensures FromTwelveHour(TwelveHourReading(h), m, if h >= 12 then " PM" else " AM") == Some((h, m))
  {
    assert " AM" != " PM";
  }

  /** `ParseTwelveHour` on a shown time reads its hour and meridiem. */
  lemma ReadShownTime(d: nat, m: string, suffix: string)
    requires 1 <= d <= 12 && ':' !in m && |suffix| == 3 && ':' !in suffix
    ensures ParseTwelveHour(IntToString(d) + ":" + (m + suffix)) == FromTwelveHour(d, m, suffix)
  {
    var rest := m + suffix;
    NumeralHasNoColon(d);
    assert ':' !in rest;
    SplitOfTime(IntToString(d), rest);
    ParseIntOfString(d);
    assert rest[..|rest| - 3] == m && rest[|rest| - 3..] == suffix;
  }

  /** A seconds field is ignored: only the text up to the second `:` is shown. */
  lemma FormatTimeIgnoresSeconds(hours: string, m: string, seconds: string)
    requires ':' !in hours && ':' !in m
    ensures FormatTime(hours + ":" + (m + ":" + seconds)) == FormatTime(hours + ":" + m)
  {
    SplitAfterPiece(hours, m + ":" + seconds, ':');
    SplitAfterPiece(m, seconds, ':');
    SplitOfTime(hours, m);
  }

  /** An hour `parseInt` cannot read is shown as 12 in the morning. */
  lemma FormatTimeOfUnreadableHour(time: string)
    requires ParseInt(Split(time, ':')[0]).None?
    ensures var pieces := Split(time, ':');
      FormatTime(time) == "12:" + ((if |pieces| >= 2 then pieces[1] else "undefined") + " AM")
  {
    var pieces := Split(time, ':');
    UnreadableHour(if |pieces| >= 2 then pieces[1] else "undefined");
  }

  lemma UnreadableHour(minutes: string)
    ensures ShowTime(None, minutes) == "12:" + (minutes + " AM")
  {
    assert IntToString(12) == "12";
  }

  // ---------------------------------------------------------------------------
  // formatDateForInput
  // ---------------------------------------------------------------------------

  /** What `formatDateForInput` reads of a `Date`: `getFullYear()`, the zero-based
      `getMonth()` and `getDate()`. */
  datatype CalendarDate = CalendarDate(year: int, month: int, day: int)

  /** `formatDateForInput`: `year-month-day`, the month counted from 1 and the month
      and day padded to two digits. */
  function FormatDateForInput(date: CalendarDate): string {
    IntToString(date.year) + "-" + (PadStart2(IntToString(date.month + 1)) + "-" + PadStart2(IntToString(date.day)))
  }

  /** The dates a `Date` object can report: month 0 to 11, day 1 to 31. */
  predicate IsCalendarDate(date: CalendarDate) {
    0 <= date.month <= 11 && 1 <= date.day <= 31
  }

  /** Reads a `YYYY-MM-DD` text back to a date with a zero-based month. */
  function ParseDateInput(s: string): Option<CalendarDate> {
    var pieces := Split(s, '-');
    if |pieces| == 3 && (forall k :: 0 <= k < 3 ==> pieces[k] != [] && AllDigits(pieces[k])) then
      Some(CalendarDate(DecimalValue(pieces[0]), DecimalValue(pieces[1]) - 1, DecimalValue(pieces[2])))
    else None
  }

  /** A number below 100 padded to two places: two digits, a `0` in front exactly when
      it is below 10, and the same value. */
  lemma PadTwoDigits(n: nat)
    requires n < 100
    ensures var r := PadStart2(IntToString(n));
      && |r| == 2 && AllDigits(r) && DecimalValue(r) == n
      && (r[0] == '0' <==> n < 10)
  {
    var s := NatToString(n);
    var r := PadStart2(s);
    NumeralValue(n);
    if n < 10 {
      assert r == "0" + s;
      LeadingZero(s);
    } else {
      TwoDigitNumeral(n);
      NumeralLeadingDigit(n);
      assert r == s;
    }
  }

  lemma TwoDigitNumeral(n: nat)
    requires 10 <= n < 100
    ensures |NatToString(n)| == 2
  {
    assert |NatToString(n / 10)| == 1;
  }

  lemma ThreeDigitNumeral(n: nat)
    requires 100 <= n < 1000
    ensures |NatToString(n)| == 3
  {
    TwoDigitNumeral(n / 10);
  }

  lemma FourDigitNumeral(n: nat)
    requires 1000 <= n < 10000
    ensures |NatToString(n)| == 4
  {
    ThreeDigitNumeral(n / 10);
  }

  /** Digit-only text holds no character other than a digit. */
  lemma DigitsLack(s: string, c: char)
    requires AllDigits(s) && !IsDigit(c)
    ensures c !in s
  {
    forall k | 0 <= k < |s| ensures s[k] != c {
      assert IsDigit(s[k]);
    }
  }

  /** The pieces `formatDateForInput` joins with dashes. */
  lemma DateFields(date: CalendarDate)
    requires IsCalendarDate(date) && date.year >= 0
    ensures var y, m, d := IntToString(date.year), PadStart2(IntToString(date.month + 1)),
                           PadStart2(IntToString(date.day));
      && FormatDateForInput(date) == y + "-" + (m + "-" + d)
      && AllDigits(y) && y != [] && DecimalValue(y) == date.year
      && AllDigits(m) && |m| == 2 && DecimalValue(m) == date.month + 1
      && AllDigits(d) && |d| == 2 && DecimalValue(d) == date.day
  {
    PadTwoDigits(date.month + 1);
    PadTwoDigits(date.day);
    NumeralValue(date.year);
  }

  /** Splitting `y-m-d` on `-` when no part holds a dash. */
  lemma SplitDate(y: string, m: string, d: string)
    requires '-' !in y && '-' !in m && '-' !in d
    ensures Split(y + "-" + (m + "-" + d), '-') == [y, m, d]
  {
    SplitAfterPiece(y, m + "-" + d, '-');
    SplitAfterPiece(m, d, '-');
    SplitWithoutSeparator(d, '-');
  }

  /** For a year from 0 on, the input text is read back to the same date. */
  lemma FormatDateRoundTrip(date: CalendarDate)
    requires IsCalendarDate(date) && date.year >= 0
    ensures ParseDateInput(FormatDateForInput(date)) == Some(date)
  {
    DateFields(date);
    ReadDateFields(IntToString(date.year), PadStart2(IntToString(date.month + 1)),
      PadStart2(IntToString(date.day)), date);
  }

  lemma ReadDateFields(y: string, m: string, d: string, date: CalendarDate)
    requires AllDigits(y) && y != [] && DecimalValue(y) == date.year
    requires AllDigits(m) && m != [] && DecimalValue(m) == date.month + 1
    requires AllDigits(d) && d != [] && DecimalValue(d) == date.day
    ensures ParseDateInput(y + "-" + (m + "-" + d)) == Some(date)
  {
    DigitsLack(y, '-');
    DigitsLack(m, '-');
    DigitsLack(d, '-');
    SplitDate(y, m, d);
    var pieces := [y, m, d];
    assert forall k :: 0 <= k < 3 ==> pieces[k] != [] && AllDigits(pieces[k]);
  }

  /** The input text of a date with a four-digit year is ten characters long, with the
      dashes in fifth and eighth place. */
  lemma FormatDateWidth(date: CalendarDate)
    requires IsCalendarDate(date) && 1000 <= date.year <= 9999
    ensures var s := FormatDateForInput(date); |s| == 10 && s[4] == '-' && s[7] == '-'
  {
    DateFields(date);
    FourDigitNumeral(date.year);
  }
}
