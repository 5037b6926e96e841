/** ModalDatePicker.tsx: the host dialog of the wheels. It keeps the five
    selected fields, offers each wheel the options that do not lie after the
    bound ("now"), pulls the selection back under the bound one field per
    pass, and emits the selection as `YYYY-MM-DDTHH:mm` on confirm. The
    bound is a parameter instead of a clock read. */
module DatePicker {
  import opened Calendar

  /** The year wheel spans the bound's year and the ten before it. */
  const YearSpan: nat := 11

  predicate Increasing(s: seq<int>) {
    forall i, j :: 0 <= i < j < |s| ==> s[i] < s[j]
  }

  /** `Array.from({ length: n }, (_, i) => lo + i)`. */
  function Range(lo: int, n: nat): (r: seq<int>)
    ensures |r| == n && Increasing(r)
    ensures forall i :: 0 <= i < n ==> r[i] == lo + i
    ensures forall x :: x in r <==> lo <= x < lo + n
  {
    var r := seq(n, i => lo + i);
    assert forall x :: lo <= x < lo + n ==> x in r by {
      forall x | lo <= x < lo + n ensures x in r {
        assert r[x - lo] == x;
      }
    }
    r
  }

  /** `.filter(o => o.value <= limit)`: keeps order, keeps exactly the
      elements not above the limit. */
  function AtMost(s: seq<int>, limit: int): (r: seq<int>)
    ensures forall x :: x in r <==> x in s && x <= limit
    ensures Increasing(s) ==> Increasing(r)
  {
    if s == [] then []
    else
      var rest := AtMost(s[1..], limit);
      assert Increasing(s) ==> forall x :: x in rest ==> s[0] < x by {
        if Increasing(s) {
          forall x | x in rest ensures s[0] < x {
            var k :| 0 <= k < |s[1..]| && s[1..][k] == x;
            assert s[k + 1] == x;
          }
        }
      }
      if s[0] <= limit then
        assert Increasing(s) ==> Increasing([s[0]] + rest) by {
          if Increasing(s) {
            var t := [s[0]] + rest;
            forall i, j | 0 <= i < j < |t| ensures t[i] < t[j] {
              assert t[j] == rest[j - 1];
              if i > 0 { assert t[i] == rest[i - 1]; } else { assert rest[j - 1] in rest; }
            }
          }
        }
        [s[0]] + rest
      else rest
  }

  /** The selection's date is the bound's date. */
  predicate SameDate(sel: DateTime, bound: DateTime) {
    sel.year == bound.year && sel.month == bound.month && sel.day == bound.day
  }

  /** The year wheel: the eleven years up to the bound's, ascending. */
  function YearOptions(bound: DateTime): (r: seq<int>)
    ensures |r| == YearSpan && Increasing(r)
    ensures r[0] == bound.year - 10 && r[YearSpan - 1] == bound.year
    ensures forall y :: y in r <==> bound.year - 10 <= y <= bound.year
  {
    Range(bound.year - 10, YearSpan)
  }

  /** The month wheel: all twelve months, cut at the bound's month only
      when the selected year is the bound's year. */
  function MonthOptions(sel: DateTime, bound: DateTime): (r: seq<int>)
    ensures Increasing(r)
    ensures forall m :: m in r <==> 0 <= m < 12 && (sel.year == bound.year ==> m <= bound.month)
  {
    var all := Range(0, 12);
    if sel.year == bound.year then AtMost(all, bound.month) else all
  }

  /** The day wheel: the days of the selected month, cut at the bound's day
      only when year and month are the bound's. */
  function DayOptions(sel: DateTime, bound: DateTime): (r: seq<int>)
    ensures Increasing(r)
    ensures forall d :: d in r <==>
      1 <= d <= DaysInMonth(sel.year, sel.month)
      && (sel.year == bound.year && sel.month == bound.month ==> d <= bound.day)
  {
    var all := Range(1, DaysInMonth(sel.year, sel.month));
    if sel.year == bound.year && sel.month == bound.month then AtMost(all, bound.day) else all
  }

  /** The hour wheel: 0..23, cut at the bound's hour only on the bound's date. */
  function HourOptions(sel: DateTime, bound: DateTime): (r: seq<int>)
    ensures Increasing(r)
    ensures forall h :: h in r <==> 0 <= h < 24 && (SameDate(sel, bound) ==> h <= bound.hour)
  {
    var all := Range(0, 24);
    if SameDate(sel, bound) then AtMost(all, bound.hour) else all
  }

  /** The minute wheel: 0..59, cut at the bound's minute only on the bound's
      date and hour. */
  function MinuteOptions(sel: DateTime, bound: DateTime): (r: seq<int>)
    ensures Increasing(r)
    ensures forall m :: m in r <==>
      0 <= m < 60 && (SameDate(sel, bound) && sel.hour == bound.hour ==> m <= bound.minute)
  {
    var all := Range(0, 60);
    if SameDate(sel, bound) && sel.hour == bound.hour then AtMost(all, bound.minute) else all
  }

  /** How many of the five fields differ. */
  function ChangedFields(a: DateTime, b: DateTime): nat {
    (if a.year != b.year then 1 else 0) + (if a.month != b.month then 1 else 0)
    + (if a.day != b.day then 1 else 0) + (if a.hour != b.hour then 1 else 0)
    + (if a.minute != b.minute then 1 else 0)
  }

  /** The largest day the adjustment pass allows for the selected month:
      the month's length, lowered to the bound's day in the bound's month. */
  function MaxDayFor(sel: DateTime, bound: DateTime): (r: Day)
    ensures r <= DaysInMonth(sel.year, sel.month)
    ensures sel.year == bound.year && sel.month == bound.month ==> r <= bound.day
    ensures r == DaysInMonth(sel.year, sel.month)
      || (sel.year == bound.year && sel.month == bound.month && r == bound.day)
  {
    var dim := DaysInMonth(sel.year, sel.month);
    if sel.year == bound.year && sel.month == bound.month
    then (if dim < bound.day then dim else bound.day)
    else dim
  }

  /** One run of the adjustment effect: the first offending field, coarsest
      first, is set back and the run ends. So a pass changes at most one
      field; a changed field only goes down, and goes to the bound's value
      (or, for the day, to the month's largest allowed day). */
  function AdjustStep(sel: DateTime, bound: DateTime): (r: DateTime)
    ensures ChangedFields(sel, r) <= 1
    ensures r.year <= sel.year && r.month <= sel.month && r.day <= sel.day
      && r.hour <= sel.hour && r.minute <= sel.minute
    ensures (r.year != sel.year ==> r.year == bound.year)
      && (r.month != sel.month ==> r.month == bound.month)
      && (r.day != sel.day ==> r.day == MaxDayFor(sel, bound))
      && (r.hour != sel.hour ==> r.hour == bound.hour)
      && (r.minute != sel.minute ==> r.minute == bound.minute)
  {
    if sel.year > bound.year then sel.(year := bound.year)
    else if sel.year == bound.year && sel.month > bound.month then sel.(month := bound.month)
    else if sel.day > MaxDayFor(sel, bound) then sel.(day := MaxDayFor(sel, bound))
    else if SameDate(sel, bound) && sel.hour > bound.hour then sel.(hour := bound.hour)
    else if SameDate(sel, bound) && sel.hour == bound.hour && sel.minute > bound.minute
    then sel.(minute := bound.minute)
    else sel
  }

  /** The largest allowed day is the last entry of the day wheel. */
  lemma MaxDayIsLastDayOption(sel: DateTime, bound: DateTime)
    ensures MaxDayFor(sel, bound) in DayOptions(sel, bound)
    ensures forall d :: d in DayOptions(sel, bound) ==> d <= MaxDayFor(sel, bound)
  {
  }

  /** The pass is a clamp: it leaves a selection alone exactly when the
      selection is a real date not after the bound. */
  lemma {:induction false} AdjustFixedIff(sel: DateTime, bound: DateTime)
    ensures AdjustStep(sel, bound) == sel <==> AtOrBefore(sel, bound) && ValidDate(sel)
  {
  }

  /** How many of the five checks of the pass, in order, a selection passes. */
  function Stage(sel: DateTime, bound: DateTime): nat {
    if sel.year > bound.year then 0
    else if sel.year == bound.year && sel.month > bound.month then 1
    else if sel.day > MaxDayFor(sel, bound) then 2
    else if SameDate(sel, bound) && sel.hour > bound.hour then 3
    else if SameDate(sel, bound) && sel.hour == bound.hour && sel.minute > bound.minute then 4
    else 5
  }

  /** Every pass that changes something moves past the check it fixed. */
  lemma StageAdvances(sel: DateTime, bound: DateTime)
    ensures Stage(sel, bound) == 5 ==> AdjustStep(sel, bound) == sel
    ensures Stage(sel, bound) < 5 ==> Stage(AdjustStep(sel, bound), bound) > Stage(sel, bound)
  {
  }

  /** The selection after n re-runs of the effect. */
  function Iterate(sel: DateTime, bound: DateTime, n: nat): DateTime
    decreases n
  {
    if n == 0 then sel else Iterate(AdjustStep(sel, bound), bound, n - 1)
  }

  lemma {:induction false} IterateStage(sel: DateTime, bound: DateTime, n: nat)
    ensures Stage(Iterate(sel, bound, n), bound) >= if Stage(sel, bound) + n < 5 then Stage(sel, bound) + n else 5
    decreases n
  {
    if n > 0 {
      StageAdvances(sel, bound);
      if Stage(sel, bound) == 5 {
        IterateOfFixed(sel, bound, n);
      } else {
        IterateStage(AdjustStep(sel, bound), bound, n - 1);
      }
    }
  }

  lemma {:induction false} IterateOfFixed(sel: DateTime, bound: DateTime, n: nat)
    requires AdjustStep(sel, bound) == sel
    ensures Iterate(sel, bound, n) == sel
    decreases n
  {
    if n > 0 {
      IterateOfFixed(sel, bound, n - 1);
    }
  }

  /** Re-running the effect settles within five passes, and what it settles
      on is a real date not after the bound. */
  lemma AdjustSettles(sel: DateTime, bound: DateTime, n: nat)
    requires n >= 5
    ensures AdjustStep(Iterate(sel, bound, n), bound) == Iterate(sel, bound, n)
    ensures AtOrBefore(Iterate(sel, bound, n), bound) && ValidDate(Iterate(sel, bound, n))
  {
    IterateStage(sel, bound, n);
    StageAdvances(Iterate(sel, bound, n), bound);
    AdjustFixedIff(Iterate(sel, bound, n), bound);
  }

  /** The settled selection is reached by lowering fields only, so it is
      never later than the selection it started from. */
  lemma {:induction false} IterateOnlyLowers(sel: DateTime, bound: DateTime, n: nat)
    ensures var r := Iterate(sel, bound, n);
      r.year <= sel.year && r.month <= sel.month && r.day <= sel.day
      && r.hour <= sel.hour && r.minute <= sel.minute
    decreases n
  {
    if n > 0 {
      IterateOnlyLowers(AdjustStep(sel, bound), bound, n - 1);
    }
  }

  /** After the selection has settled, every wheel's value is one of its
      options (so every wheel can scroll to it), provided the year is within
      the year wheel's span; and conversely. */
  lemma SettledIffInDomains(sel: DateTime, bound: DateTime)
    ensures (sel.year in YearOptions(bound) && sel.month in MonthOptions(sel, bound)
             && sel.day in DayOptions(sel, bound) && sel.hour in HourOptions(sel, bound)
             && sel.minute in MinuteOptions(sel, bound))
        <==> AdjustStep(sel, bound) == sel && bound.year - 10 <= sel.year
  {
  }

  /** The value handleConfirm builds: dayjs sets year, month and day (a day
      past the month's end rolls over into the next month, as Date.setDate
      does), and hour and minute are 0 when the time is excluded. The result
      is a real date; for a real date it is the selection itself, with the
      time zeroed when the time is excluded. */
  function Confirmed(sel: DateTime, includeTime: bool): (r: DateTime)
    ensures ValidDate(r)
    ensures ValidDate(sel) ==> r == if includeTime then sel else sel.(hour := 0, minute := 0)
    ensures !ValidDate(sel) ==> AtOrBefore(sel.(hour := r.hour, minute := r.minute), r)
    ensures r.hour == (if includeTime then sel.hour else 0)
    ensures r.minute == (if includeTime then sel.minute else 0)
    ensures !ValidDate(sel) ==>
      r.day == sel.day - DaysInMonth(sel.year, sel.month)
      && (r.year, r.month) == if sel.month == 11 then (sel.year + 1, 0) else (sel.year, sel.month + 1)
  {
    var dim := DaysInMonth(sel.year, sel.month);
    var h := if includeTime then sel.hour else 0;
    var mi := if includeTime then sel.minute else 0;
    if sel.day <= dim then DateTime(sel.year, sel.month, sel.day, h, mi)
    else if sel.month == 11 then DateTime(sel.year + 1, 0, sel.day - dim, h, mi)
    else DateTime(sel.year, sel.month + 1, sel.day - dim, h, mi)
  }

  /** A settled selection is never confirmed as a moment after the bound. */
  lemma ConfirmedNotAfterBound(sel: DateTime, bound: DateTime, includeTime: bool)
    requires AdjustStep(sel, bound) == sel
    ensures AtOrBefore(Confirmed(sel, includeTime), bound)
  {
    AdjustFixedIff(sel, bound);
  }

  /** The emitted text of a real date with a four-digit year reads back as
      the selection (time zeroed when excluded). */
  lemma ConfirmTextRoundTrip(sel: DateTime, includeTime: bool)
    requires ValidDate(sel) && 0 <= sel.year <= 9999
    ensures ParseLocal(FormatLocal(Confirmed(sel, includeTime)))
      == Wrappers.Some(if includeTime then sel else sel.(hour := 0, minute := 0))
  {
    FormatParseRoundTrip(Confirmed(sel, includeTime));
  }

  /** The five `useState` fields of the dialog and its handlers. */
  class Picker {
    var year: int
    var month: Month
    var day: Day
    var hour: Hour
    var minute: Minute
    const includeTime: bool

    function Selection(): DateTime
      reads this
    {
      DateTime(year, month, day, hour, minute)
    }

    /** Seeded from the initial value (dayjs parsing of `initialDate`, or
        "now" when it is absent, happens before). */
    constructor (initial: DateTime, includeTime: bool)
      ensures Selection() == initial && this.includeTime == includeTime
    {
      year, month, day := initial.year, initial.month, initial.day;
      hour, minute := initial.hour, initial.minute;
      this.includeTime := includeTime;
    }

    /** The year wheel's `onChange`. */
    method SelectYear(y: int)
      modifies this
      ensures Selection() == old(Selection()).(year := y)
    {
      year := y;
    }

    /** The month wheel's `onChange`. */
    method SelectMonth(m: Month)
      modifies this
      ensures Selection() == old(Selection()).(month := m)
    {
      month := m;
    }

    /** The day wheel's `onChange`. */
    method SelectDay(d: Day)
      modifies this
      ensures Selection() == old(Selection()).(day := d)
    {
      day := d;
    }

    /** The hour wheel's `onChange`. */
    method SelectHour(h: Hour)
      modifies this
      ensures Selection() == old(Selection()).(hour := h)
    {
      hour := h;
    }

    /** The minute wheel's `onChange`. */
    method SelectMinute(m: Minute)
      modifies this
      ensures Selection() == old(Selection()).(minute := m)
    {
      minute := m;
    }

    /** One run of the adjustment effect against the bound read at render. */
    method Adjust(bound: DateTime)
      modifies this
      ensures Selection() == AdjustStep(old(Selection()), bound)
    {
      if year > bound.year {
        year := bound.year;
        return;
      }
      if year == bound.year && month > bound.month {
        month := bound.month;
        return;
      }
      var dim := DaysInMonth(year, month);
      var maxDayForMonth := if year == bound.year && month == bound.month
        then (if dim < bound.day then dim else bound.day) else dim;
      if day > maxDayForMonth {
        day := maxDayForMonth;
        return;
      }
      if year == bound.year && month == bound.month && day == bound.day && hour > bound.hour {
        hour := bound.hour;
        return;
      }
      if year == bound.year && month == bound.month && day == bound.day && hour == bound.hour
         && minute > bound.minute {
        minute := bound.minute;
      }
    }

    /** handleConfirm: the text passed to `onSelect`. */
    method Confirm() returns (text: string)
      ensures text == FormatLocal(Confirmed(Selection(), includeTime))
    {
      var dim := DaysInMonth(year, month);
      var y, m, d := year, month, day;
      if day > dim {
        d := day - dim;
        if month == 11 { y, m := year + 1, 0; } else { m := month + 1; }
      }
      var h := if includeTime then hour else 0;
      var mi := if includeTime then minute else 0;
      assert DateTime(y, m, d, h, mi) == Confirmed(Selection(), includeTime);
      text := FormatLocal(DateTime(y, m, d, h, mi));
    }
  }
}
