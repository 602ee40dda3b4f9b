/** `formatLastSeen` of `src/utils/index.js`. Dates are local calendar days; the
    time of day matters only through the `toLocaleTimeString` text, which is a
    parameter, and a timestamp that does not parse is an invalid date (None). */
module Utils {
  import opened Common

  /** A local calendar day; `month` is 0-based, as `getMonth()` returns it. */
  datatype CalendarDate = CalendarDate(year: int, month: int, day: int)

  /** Leap years of the proleptic Gregorian calendar that `Date` uses. */
  predicate IsLeap(year: int) {
    (year % 4 == 0 && year % 100 != 0) || year % 400 == 0
  }

  function DaysInMonth(year: int, month: int): (n: int)
    requires 0 <= month < 12
    ensures 28 <= n <= 31
  {
    if month == 1 then (if IsLeap(year) then 29 else 28)
    else if month == 3 || month == 5 || month == 8 || month == 10 then 30
    else 31
  }

  predicate ValidDate(d: CalendarDate) {
    0 <= d.month < 12 && 1 <= d.day <= DaysInMonth(d.year, d.month)
  }

  type Date = d: CalendarDate | ValidDate(d) witness CalendarDate(1970, 0, 1)

  /** `yesterday.setDate(now.getDate() - 1)`: day 0 rolls back to the last day of the previous
      month, and of the previous year in January. */
  function PrevDay(d: Date): (r: Date)
    ensures r != d
  {
    if d.day > 1 then d.(day := d.day - 1)
    else if d.month > 0 then CalendarDate(d.year, d.month - 1, DaysInMonth(d.year, d.month - 1))
    else CalendarDate(d.year - 1, 11, 31)
  }

  /** The following day: the reference that `PrevDay` undoes. */
  function NextDay(d: Date): (r: Date)
    ensures r != d
  {
    if d.day < DaysInMonth(d.year, d.month) then d.(day := d.day + 1)
    else if d.month < 11 then CalendarDate(d.year, d.month + 1, 1)
    else CalendarDate(d.year + 1, 0, 1)
  }

  /** Going back a day and then forward a day, or forward then back, returns to the same date:
      the roll-over across months, years and February 29 is exact. */
  lemma DayStepsRoundTrip(d: Date)
    ensures NextDay(PrevDay(d)) == d
    ensures PrevDay(NextDay(d)) == d
  {
  }

  /** `DD/MM/YYYY`: the day and 1-based month zero-padded to two digits, then `${year}`. */
  function DateText(d: Date): (r: string)
    ensures |r| >= 7
  {
    PadStart2(NatToString(d.day)) + "/" + PadStart2(NatToString(d.month + 1)) + "/" + IntToString(d.year)
  }

  /** The date text reads back to the date: two digits of day, a slash, two digits of the 1-based
      month, a slash, the year. */
  lemma DateTextRoundTrip(d: Date)
    ensures var r := DateText(d);
      && r[2] == '/' && r[5] == '/'
      && AllDigits(r[..2]) && ParseDecimal(r[..2]) == d.day
      && AllDigits(r[3..5]) && ParseDecimal(r[3..5]) == d.month + 1
      && r[6..] == IntToString(d.year)
  {
    Pad2RoundTrip(d.day);
    Pad2RoundTrip(d.month + 1);
    SlashFields(PadStart2(NatToString(d.day)), PadStart2(NatToString(d.month + 1)), IntToString(d.year));
  }

  /** Where the three fields sit in `dd/mm/rest` when both leading fields have two characters. */
  lemma SlashFields(dd: string, mm: string, rest: string)
    requires |dd| == 2 && |mm| == 2
    ensures var r := dd + "/" + mm + "/" + rest;
      r[2] == '/' && r[5] == '/' && r[..2] == dd && r[3..5] == mm && r[6..] == rest
  {
    var r := dd + "/" + mm + "/" + rest;
    assert r[..2] == dd;
    assert r[3..5] == mm;
    assert r[6..] == rest;
  }

  const InvalidDateText: string := "NaN/NaN/NaN"

  /** `formatLastSeen(lastSeen)` at the moment `now`: the same day gives the locale time text,
      checked first; the day before gives 'Yesterday'; any other day gives its date text; an
      invalid date fails both day comparisons and renders every part as NaN. */
  function FormatLastSeen(now: Date, lastSeen: Option<Date>, timeText: string): (r: string)
    ensures lastSeen == Some(now) ==> r == timeText
    ensures lastSeen == Some(PrevDay(now)) ==> r == "Yesterday"
    ensures lastSeen.Some? && lastSeen.value != now && lastSeen.value != PrevDay(now) ==> r == DateText(lastSeen.value)
    ensures lastSeen.None? ==> r == InvalidDateText
  {
    if lastSeen.None? then InvalidDateText
    else if lastSeen.value == now then timeText
    else if lastSeen.value == PrevDay(now) then "Yesterday"
    else DateText(lastSeen.value)
  }

  /** The date branch never collides with the fixed texts: its output always has the slash layout
      of a real date, and the invalid text fails it. */
  lemma OlderDatesAreDates(now: Date, d: Date, timeText: string)
    requires d != now && d != PrevDay(now)
    ensures var r := FormatLastSeen(now, Some(d), timeText);
      r != "Yesterday" && r != InvalidDateText && AllDigits(r[..2]) && ParseDecimal(r[..2]) == d.day
  {
    var r := FormatLastSeen(now, Some(d), timeText);
    assert r == DateText(d);
    DateTextRoundTrip(d);
    assert r[2] == '/';
    assert "Yesterday"[2] == 's' && InvalidDateText[2] == 'N';
  }

  /** Examples: the last day of February in a leap year is yesterday on March 1, and New Year's Eve
      is yesterday on January 1. */
  lemma RollOverExamples()
    ensures PrevDay(CalendarDate(2024, 2, 1)) == CalendarDate(2024, 1, 29)
    ensures PrevDay(CalendarDate(2023, 2, 1)) == CalendarDate(2023, 1, 28)
    ensures PrevDay(CalendarDate(2025, 0, 1)) == CalendarDate(2024, 11, 31)
  {
  }
}
