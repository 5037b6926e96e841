/** The calendar value behind the date/time picker: five integer fields,
    month counted from 0 as JavaScript's Date and dayjs count it, the
    Gregorian month lengths, the lexicographic order used for the
    "no future dates" bound, and the `YYYY-MM-DDTHH:mm` text the picker emits. */
module Calendar {
  import opened Wrappers
  import opened Text

  type Month = m: int | 0 <= m < 12
  type Day = d: int | 1 <= d <= 31 witness 1
  type Hour = h: int | 0 <= h < 24
  type Minute = m: int | 0 <= m < 60

  /** The Gregorian rule: every fourth year, except centuries not divisible by 400. */
  predicate IsLeapYear(y: int) {
    (y % 4 == 0 && y % 100 != 0) || y % 400 == 0
  }

  /** The number of days of month `m` (0 = January) of year `y`. */
  function DaysInMonth(y: int, m: Month): (n: int)
    ensures 28 <= n <= 31
  {
    if m == 1 then (if IsLeapYear(y) then 29 else 28)
    else if m == 3 || m == 5 || m == 8 || m == 10 then 30
    else 31
  }

  /** The days of the months before month `m` of year `y`. */
  function DaysBefore(y: int, m: int): int
    requires 0 <= m <= 12
  {
    if m == 0 then 0 else DaysBefore(y, m - 1) + DaysInMonth(y, m - 1)
  }

  /** The month lengths add up to the length of the Gregorian year. */
  lemma {:induction false} DaysInYear(y: int)
    ensures DaysBefore(y, 12) == if IsLeapYear(y) then 366 else 365
  {
    assert DaysBefore(y, 1) == 31;
    assert DaysBefore(y, 2) == 31 + DaysInMonth(y, 1);
    assert DaysBefore(y, 3) == DaysBefore(y, 2) + 31;
    assert DaysBefore(y, 4) == DaysBefore(y, 3) + 30;
    assert DaysBefore(y, 5) == DaysBefore(y, 4) + 31;
    assert DaysBefore(y, 6) == DaysBefore(y, 5) + 30;
    assert DaysBefore(y, 7) == DaysBefore(y, 6) + 31;
    assert DaysBefore(y, 8) == DaysBefore(y, 7) + 31;
    assert DaysBefore(y, 9) == DaysBefore(y, 8) + 30;
    assert DaysBefore(y, 10) == DaysBefore(y, 9) + 31;
    assert DaysBefore(y, 11) == DaysBefore(y, 10) + 30;
  }

  datatype DateTime = DateTime(year: int, month: Month, day: Day, hour: Hour, minute: Minute)

  /** The day exists in its month. */
  predicate ValidDate(v: DateTime) {
    v.day <= DaysInMonth(v.year, v.month)
  }

  /** `a` is not later than `b`: lexicographic over (year, month, day, hour, minute). */
  predicate AtOrBefore(a: DateTime, b: DateTime) {
    a.year < b.year || (a.year == b.year &&
    (a.month < b.month || (a.month == b.month &&
    (a.day < b.day || (a.day == b.day &&
    (a.hour < b.hour || (a.hour == b.hour && a.minute <= b.minute)))))))
  }

  /** dayjs's `format("YYYY-MM-DDTHH:mm")`: the year padded to four characters,
      the month shown from 1, every other field padded to two digits. For a
      four-digit year the text is sixteen characters with the separators at
      fixed places and each field's digits spelling the field. */
  function FormatLocal(v: DateTime): (r: string)
    ensures 0 <= v.year <= 9999 ==>
      |r| == 16 && r[4] == '-' && r[7] == '-' && r[10] == 'T' && r[13] == ':'
      && AllDigits(r[0..4]) && DigitsValue(r[0..4]) == v.year
      && AllDigits(r[5..7]) && DigitsValue(r[5..7]) == v.month + 1
      && AllDigits(r[8..10]) && DigitsValue(r[8..10]) == v.day
      && AllDigits(r[11..13]) && DigitsValue(r[11..13]) == v.hour
      && AllDigits(r[14..16]) && DigitsValue(r[14..16]) == v.minute
  {
    var ys := PadStart(IntToString(v.year), 4, '0');
    var ms, ds, hs, mis := Pad2(v.month + 1), Pad2(v.day), Pad2(v.hour), Pad2(v.minute);
    var s := ys + "-" + ms + "-" + ds + "T" + hs + ":" + mis;
    if 0 <= v.year <= 9999 then
      assert Pow10(2) == 100 && Pow10(4) == 10000;
      assert IntToString(v.year) == NatToString(v.year);
      PaddedValue(v.year, 4);
      PaddedValue(v.month + 1, 2);
      PaddedValue(v.day, 2);
      PaddedValue(v.hour, 2);
      PaddedValue(v.minute, 2);
      FieldSlices(s, ys, ms, ds, hs, mis);
      s
    else s
  }

  predicate DigitsAt(s: string, i: nat, j: nat)
    requires i <= j <= |s|
  {
    AllDigits(s[i..j])
  }

  /** Reads `YYYY-MM-DDTHH:mm` back into its fields; None for any other text
      or for a field out of range. */
  function ParseLocal(s: string): (r: Option<DateTime>)
    ensures r.Some? ==> |s| == 16 && s[4] == '-' && s[7] == '-' && s[10] == 'T' && s[13] == ':'
  {
    if |s| == 16 && s[4] == '-' && s[7] == '-' && s[10] == 'T' && s[13] == ':'
       && DigitsAt(s, 0, 4) && DigitsAt(s, 5, 7) && DigitsAt(s, 8, 10)
       && DigitsAt(s, 11, 13) && DigitsAt(s, 14, 16)
    then
      var y := DigitsValue(s[0..4]);
      var mo := DigitsValue(s[5..7]);
      var d := DigitsValue(s[8..10]);
      var h := DigitsValue(s[11..13]);
      var mi := DigitsValue(s[14..16]);
      if 1 <= mo <= 12 && 1 <= d <= 31 && h < 24 && mi < 60
      then Some(DateTime(y, mo - 1, d, h, mi))
      else None
    else None
  }

  /** Where the five fields of a text built like FormatLocal's sit. */
  lemma FieldSlices(s: string, ys: string, ms: string, ds: string, hs: string, mis: string)
    requires |ys| == 4 && |ms| == 2 && |ds| == 2 && |hs| == 2 && |mis| == 2
    requires s == ys + "-" + ms + "-" + ds + "T" + hs + ":" + mis
    ensures |s| == 16 && s[4] == '-' && s[7] == '-' && s[10] == 'T' && s[13] == ':'
    ensures s[0..4] == ys && s[5..7] == ms && s[8..10] == ds && s[11..13] == hs && s[14..16] == mis
  {
  }

  /** ParseLocal reads each field from its fixed position. */
  lemma ParseOfFields(s: string, v: DateTime)
    requires |s| == 16 && s[4] == '-' && s[7] == '-' && s[10] == 'T' && s[13] == ':'
    requires AllDigits(s[0..4]) && DigitsValue(s[0..4]) == v.year
    requires AllDigits(s[5..7]) && DigitsValue(s[5..7]) == v.month + 1
    requires AllDigits(s[8..10]) && DigitsValue(s[8..10]) == v.day
    requires AllDigits(s[11..13]) && DigitsValue(s[11..13]) == v.hour
    requires AllDigits(s[14..16]) && DigitsValue(s[14..16]) == v.minute
    ensures ParseLocal(s) == Some(v)
  {
  }

  /** For a four-digit year the emitted text has exactly the sixteen
      characters of the pattern and reads back as the same value. */
  lemma FormatParseRoundTrip(v: DateTime)
    requires 0 <= v.year <= 9999
    ensures |FormatLocal(v)| == 16
    ensures ParseLocal(FormatLocal(v)) == Some(v)
  {
    ParseOfFields(FormatLocal(v), v);
  }
}
